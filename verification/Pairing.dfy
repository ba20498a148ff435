/**
 Requests and responses: which waiter gets which result.
 */
module Pairing {
  import opened Machine
  import opened Formation
  import opened Ledger
  import opened Invariant
  import opened Conservation

  // ---------------------------------------------------------------- askers are unique

  predicate Distinct(jobs: seq<Job>) {
    forall i, j :: 0 <= i < j < |jobs| && jobs[i].Asked? && jobs[j].Asked? ==> jobs[i].asker != jobs[j].asker
  }

  predicate Asking(x: Sender) {
    !x.Idle? && !x.Flagging? && x.job.Asked?
  }

  /** Every serial number is with at most one sender or one accepted request, and was given out. */
  ghost predicate Numbered(xs: seq<Sender>, jobs: seq<Job>, askers: nat) {
    && Distinct(jobs)
    && (forall i, j :: 0 <= i < j < |xs| && Asking(xs[i]) && Asking(xs[j]) ==> xs[i].job.asker != xs[j].job.asker)
    && (forall i, k :: 0 <= i < |xs| && 0 <= k < |jobs| && Asking(xs[i]) && jobs[k].Asked? ==>
        xs[i].job.asker != jobs[k].asker)
    && (forall i :: 0 <= i < |xs| && Asking(xs[i]) ==> xs[i].job.asker < askers && xs[i].job.key < TOP)
    && (forall k :: 0 <= k < |jobs| && jobs[k].Asked? ==> jobs[k].asker < askers && jobs[k].key < TOP)
  }

  /** A sender that asks for nothing new changes nothing. */
  lemma SameNumbered(xs: seq<Sender>, jobs: seq<Job>, askers: nat, i: nat, x: Sender)
    requires Numbered(xs, jobs, askers) && i < |xs|
    requires Asking(x) ==> Asking(xs[i]) && x.job == xs[i].job
    ensures Numbered(xs[i := x], jobs, askers)
  {
  }

  lemma AskNumbered(xs: seq<Sender>, jobs: seq<Job>, askers: nat, i: nat, key: nat, msg: Msg)
    requires Numbered(xs, jobs, askers) && i < |xs| && key < TOP
    ensures Numbered(xs[i := Trying(Asked(key, askers, msg))], jobs, askers + 1)
  {
  }

  /** An accepted job's number moves from the sender to the request. */
  lemma OfferNumbered(xs: seq<Sender>, jobs: seq<Job>, askers: nat, i: nat)
    requires Numbered(xs, jobs, askers) && i < |xs| && !xs[i].Idle? && !xs[i].Flagging?
    ensures Numbered(xs[i := Flagging], jobs + [xs[i].job], askers)
  {
    var jobs' := jobs + [xs[i].job];
    assert forall k :: 0 <= k < |jobs| ==> jobs'[k] == jobs[k];
    assert Asking(xs[i]) <==> jobs'[|jobs|].Asked?;
  }

  lemma ClientNumbered(c: Config, s: State, i: nat, x: ClientAct)
    requires Numbered(s.gate.senders, s.chan.jobs, s.desk.askers) && Enabled(c, s, Client(i, x))
    ensures var s' := Apply(c, s, Client(i, x)); Numbered(s'.gate.senders, s'.chan.jobs, s'.desk.askers)
  {
    var xs, xs' := s.gate.senders, Apply(c, s, Client(i, x)).gate.senders;
    assert xs' == xs[i := xs'[i]];
    if x.Ask? {
      AskNumbered(xs, s.chan.jobs, s.desk.askers, i, x.key, x.msg);
    } else if x.Send? && s.chan.open {
      OfferNumbered(xs, s.chan.jobs, s.desk.askers, i);
    } else {
      SameNumbered(xs, s.chan.jobs, s.desk.askers, i, xs'[i]);
    }
  }

  lemma NotifyNumbered(g: Gate, jobs: seq<Job>, askers: nat)
    requires Numbered(g.senders, jobs, askers)
    ensures Numbered(NotifyStep(g).senders, jobs, askers)
  {
    if g.parked != [] && g.parked[0] < |g.senders| && g.senders[g.parked[0]].Parked? {
      SameNumbered(g.senders, jobs, askers, g.parked[0], Trying(g.senders[g.parked[0]].job));
    }
  }

  // ---------------------------------------------------------------- the waiter table

  ghost predicate Waits(d: Desk, asker: nat) {
    exists k :: k in d.waiters && d.waiters[k] == asker
  }

  ghost predicate Served(d: Desk, asker: nat) {
    exists i :: 0 <= i < |d.delivered| && d.delivered[i].asker == asker
  }

  /** Live keys leave the top bit free, and no asker is in the table or in the record of results twice. */
  ghost predicate Tabled(d: Desk) {
    && (forall k :: k in d.waiters ==> k < TOP && d.waiters[k] < d.askers)
    && (forall k, l :: k in d.waiters && l in d.waiters && k != l ==> d.waiters[k] != d.waiters[l])
    && (forall i :: 0 <= i < |d.delivered| ==> d.delivered[i].asker < d.askers)
    && (forall i, j :: 0 <= i < j < |d.delivered| ==> d.delivered[i].asker != d.delivered[j].asker)
    && (forall k, i :: k in d.waiters && 0 <= i < |d.delivered| ==> d.waiters[k] != d.delivered[i].asker)
  }

  /** No asker is forgotten. */
  ghost predicate Remembered(d: Desk) {
    forall a: nat :: a < d.askers ==> Waits(d, a) || Served(d, a)
  }

  lemma AskRemembered(d: Desk, key: nat)
    requires Remembered(d) && key !in d.waiters
    ensures Remembered(AskDesk(d, key))
  {
    var d' := AskDesk(d, key);
    forall a: nat | a < d'.askers
      ensures Waits(d', a) || Served(d', a)
    {
      if a == d.askers {
        assert key in d'.waiters && d'.waiters[key] == a;
      } else if Waits(d, a) {
        var k :| k in d.waiters && d.waiters[k] == a;
        assert k in d'.waiters && d'.waiters[k] == a;
      } else {
        assert Served(d, a);
      }
    }
  }

  lemma DeliverTabled(d: Desk, mid: Mid, answer: Answer)
    requires Tabled(d)
    ensures Tabled(DeliverDesk(d, mid, answer))
  {
  }

  lemma DeliverRemembered(d: Desk, mid: Mid, answer: Answer)
    requires Remembered(d)
    ensures Remembered(DeliverDesk(d, mid, answer))
  {
    var key := mid.mid % TOP;
    if key in d.waiters {
      var d' := DeliverDesk(d, mid, answer);
      assert d'.delivered[|d.delivered|].asker == d.waiters[key];
      forall a: nat | a < d'.askers
        ensures Waits(d', a) || Served(d', a)
      {
        if Served(d, a) {
          var i :| 0 <= i < |d.delivered| && d.delivered[i].asker == a;
          assert d'.delivered[i].asker == a;
        } else {
          assert Waits(d, a);
          var k :| k in d.waiters && d.waiters[k] == a;
          assert k != key ==> k in d'.waiters && d'.waiters[k] == a;
        }
      }
    }
  }

  // ---------------------------------------------------------------- the right result

  /** The waiter's result is the response to its own request. */
  predicate OwnResult(jobs: seq<Job>, d: Delivery) {
    && d.mid.id < |jobs| && d.mid == MidOf(jobs[d.mid.id], d.mid.id)
    && jobs[d.mid.id].Asked? && jobs[d.mid.id].asker == d.asker
  }

  predicate Live(d: Desk, j: Job) {
    j.Asked? ==> j.key in d.waiters && d.waiters[j.key] == j.asker
  }

  /** A request's waiter stays live until its response is delivered. */
  ghost predicate Held(s: State) {
    && (forall i :: 0 <= i < |s.gate.senders| && Asking(s.gate.senders[i]) ==> Live(s.desk, s.gate.senders[i].job))
    && (forall k :: 0 <= k < |s.chan.jobs| && MidOf(s.chan.jobs[k], k) !in EventMids(s.sink.answered) ==>
        Live(s.desk, s.chan.jobs[k]))
  }

  /** While no posted response has hit a live key, all deliveries are right and all answered requests delivered. */
  ghost predicate Paired(s: State) {
    && (forall i :: 0 <= i < |s.desk.delivered| ==> OwnResult(s.chan.jobs, s.desk.delivered[i]))
    && (forall m :: m in EventMids(s.sink.answered) && m.req ==>
          exists i :: 0 <= i < |s.desk.delivered| && s.desk.delivered[i].mid == m)
  }

  ghost predicate Orderly(s: State) {
    && Numbered(s.gate.senders, s.chan.jobs, s.desk.askers)
    && Tabled(s.desk) && Remembered(s.desk)
    && (forall i :: 0 <= i < |s.desk.delivered| ==>
          Response(s.desk.delivered[i].mid, s.desk.delivered[i].answer) in s.sink.answered)
    && (if s.desk.collided then exists i :: 0 <= i < |s.desk.delivered| && !s.desk.delivered[i].mid.req
        else Held(s) && Paired(s))
  }

  lemma ClientHeld(c: Config, s: State, i: nat, x: ClientAct)
    requires Held(s) && Enabled(c, s, Client(i, x))
    ensures Held(Apply(c, s, Client(i, x)))
  {
    var s' := Apply(c, s, Client(i, x));
    forall j | 0 <= j < |s'.gate.senders| && Asking(s'.gate.senders[j])
      ensures Live(s'.desk, s'.gate.senders[j].job)
    {
      if j != i {
        assert Live(s.desk, s.gate.senders[j].job);
      } else if !x.Ask? {
        assert Live(s.desk, s.gate.senders[i].job);
      }
    }
    forall k | 0 <= k < |s'.chan.jobs| && MidOf(s'.chan.jobs[k], k) !in EventMids(s'.sink.answered)
      ensures Live(s'.desk, s'.chan.jobs[k])
    {
      if k < |s.chan.jobs| {
        assert Live(s.desk, s.chan.jobs[k]);
      } else {
        assert Live(s.desk, s.gate.senders[i].job);
      }
    }
  }

  lemma ClientPaired(c: Config, s: State, i: nat, x: ClientAct)
    requires Paired(s) && Enabled(c, s, Client(i, x))
    ensures Paired(Apply(c, s, Client(i, x)))
  {
    var s' := Apply(c, s, Client(i, x));
    assert forall d :: OwnResult(s.chan.jobs, d) ==> OwnResult(s'.chan.jobs, d);
  }

  lemma ClientOrderly(c: Config, s: State, i: nat, x: ClientAct)
    requires Orderly(s) && Enabled(c, s, Client(i, x))
    ensures Orderly(Apply(c, s, Client(i, x)))
  {
    ClientNumbered(c, s, i, x);
    if x.Ask? {
      AskRemembered(s.desk, x.key);
    }
    if !s.desk.collided {
      ClientHeld(c, s, i, x);
      ClientPaired(c, s, i, x);
    }
  }

  lemma NotifyOrderly(c: Config, s: State)
    requires Orderly(s) && Enabled(c, s, Notify)
    ensures Orderly(Apply(c, s, Notify))
  {
    var s' := Apply(c, s, Notify);
    NotifyNumbered(s.gate, s.chan.jobs, s.desk.askers);
    if !s.desk.collided {
      forall j | 0 <= j < |s'.gate.senders| && Asking(s'.gate.senders[j])
        ensures Live(s'.desk, s'.gate.senders[j].job)
      {
        assert Live(s.desk, s.gate.senders[j].job);
      }
    }
  }

  /** The response in the loop's hand is a response to an accepted request not answered before. */
  lemma InHandFresh(c: Config, n: nat, s: State)
    requires Reachable(c, n, s) && s.sink.loop.OweDeliver?
    ensures var m := s.sink.loop.mid;
      m.id < |s.chan.jobs| && m == MidOf(s.chan.jobs[m.id], m.id) && m !in EventMids(s.sink.answered)
  {
    var m := s.sink.loop.mid;
    RequestsConserved(c, n, s);
    assert multiset(InHand(s.sink.loop))[m] == 1;
    assert Places(s)[m] >= multiset(InHand(s.sink.loop))[m] + multiset(EventMids(s.sink.answered))[m];
    JobsDistinct(s.chan.jobs, m);
    assert m in multiset(JobMids(s.chan.jobs));
  }

  /** Delivering one response leaves every other request's waiter alone. */
  lemma DeliverHeld(s: State, mid: Mid, s': State)
    requires Numbered(s.gate.senders, s.chan.jobs, s.desk.askers) && Held(s)
    requires mid.id < |s.chan.jobs| && mid == MidOf(s.chan.jobs[mid.id], mid.id) && mid !in EventMids(s.sink.answered)
    requires mid.req || mid.mid % TOP !in s.desk.waiters
    requires s'.gate == s.gate && s'.chan == s.chan && s'.desk.waiters == s.desk.waiters - {mid.mid % TOP}
    requires EventMids(s'.sink.answered) == EventMids(s.sink.answered) + [mid]
    ensures Held(s')
  {
    var own := s.chan.jobs[mid.id];
    assert Live(s.desk, own);
    forall i | 0 <= i < |s'.gate.senders| && Asking(s'.gate.senders[i])
      ensures Live(s'.desk, s'.gate.senders[i].job)
    {
      assert Live(s.desk, s.gate.senders[i].job);
    }
    forall k | 0 <= k < |s'.chan.jobs| && MidOf(s'.chan.jobs[k], k) !in EventMids(s'.sink.answered)
      ensures Live(s'.desk, s'.chan.jobs[k])
    {
      assert k != mid.id;
      assert Live(s.desk, s.chan.jobs[k]);
    }
  }

  lemma DeliverPaired(s: State, mid: Mid, answer: Answer, s': State)
    requires Numbered(s.gate.senders, s.chan.jobs, s.desk.askers) && Held(s) && Paired(s)
    requires mid.id < |s.chan.jobs| && mid == MidOf(s.chan.jobs[mid.id], mid.id) && mid !in EventMids(s.sink.answered)
    requires mid.req || mid.mid % TOP !in s.desk.waiters
    requires s'.chan == s.chan && s'.desk == DeliverDesk(s.desk, mid, answer)
    requires EventMids(s'.sink.answered) == EventMids(s.sink.answered) + [mid]
    ensures Paired(s')
  {
    var own := s.chan.jobs[mid.id];
    assert Live(s.desk, own);
    var n := |s.desk.delivered|;
    assert forall i :: 0 <= i < n ==> s'.desk.delivered[i] == s.desk.delivered[i];
    if mid.req {
      assert mid.mid % TOP == own.key;
      assert s'.desk.delivered[n] == Delivery(own.asker, mid, answer);
    }
    forall m | m in EventMids(s'.sink.answered) && m.req
      ensures exists i :: 0 <= i < |s'.desk.delivered| && s'.desk.delivered[i].mid == m
    {
      if m in EventMids(s.sink.answered) {
        var i :| 0 <= i < n && s.desk.delivered[i].mid == m;
        assert s'.desk.delivered[i].mid == m;
      }
    }
  }

  /** Every delivery hands over a response that is answered with it. */
  lemma DeliverAnswered(d: Desk, mid: Mid, answer: Answer, answered: seq<Event>)
    requires forall i :: 0 <= i < |d.delivered| ==> Response(d.delivered[i].mid, d.delivered[i].answer) in answered
    ensures var d' := DeliverDesk(d, mid, answer); var answered' := answered + [Response(mid, answer)];
            forall i :: 0 <= i < |d'.delivered| ==> Response(d'.delivered[i].mid, d'.delivered[i].answer) in answered'
  {
  }

  lemma DeliverCollided(d: Desk, mid: Mid, answer: Answer)
    requires d.collided ==> exists i :: 0 <= i < |d.delivered| && !d.delivered[i].mid.req
    ensures var d' := DeliverDesk(d, mid, answer);
            d'.collided ==> exists i :: 0 <= i < |d'.delivered| && !d'.delivered[i].mid.req
  {
    var d' := DeliverDesk(d, mid, answer);
    if d.collided {
      var i :| 0 <= i < |d.delivered| && !d.delivered[i].mid.req;
      assert d'.delivered[i] == d.delivered[i];
    } else if d'.collided {
      assert d'.delivered[|d.delivered|].mid == mid;
    }
  }

  lemma DeliverOrderly(c: Config, n: nat, s: State)
    requires Reachable(c, n, s) && Orderly(s) && Enabled(c, s, Deliver)
    ensures Orderly(Apply(c, s, Deliver))
  {
    var mid, answer := s.sink.loop.mid, s.sink.loop.answer;
    var s' := Apply(c, s, Deliver);
    InHandFresh(c, n, s);
    DeliverTabled(s.desk, mid, answer);
    DeliverRemembered(s.desk, mid, answer);
    DeliverAnswered(s.desk, mid, answer, s.sink.answered);
    DeliverMids(s.sink.answered, Response(mid, answer));
    DeliverCollided(s.desk, mid, answer);
    if !s'.desk.collided {
      assert s'.desk.waiters == s.desk.waiters - {mid.mid % TOP};
      DeliverHeld(s, mid, s');
      DeliverPaired(s, mid, answer, s');
    }
  }

  lemma OrderlyStep(c: Config, n: nat, s: State, a: Act)
    requires Reachable(c, n, s) && Orderly(s) && Enabled(c, s, a)
    ensures Orderly(Apply(c, s, a))
  {
    match a {
      case Client(i, x) => ClientOrderly(c, s, i, x);
      case Notify => NotifyOrderly(c, s);
      case Deliver => DeliverOrderly(c, n, s);
      case _ =>
    }
  }

  lemma {:induction false} OrderlyRun(c: Config, n: nat, s: State, acts: seq<Act>)
    requires Reachable(c, n, s) && Orderly(s) && Valid(c, s, acts)
    ensures Orderly(Exec(c, s, acts))
    decreases |acts|
  {
    if acts != [] {
      OrderlyStep(c, n, s, acts[0]);
      ReachableStep(c, n, s, acts[0]);
      OrderlyRun(c, n, Apply(c, s, acts[0]), acts[1..]);
    }
  }

  lemma ReachableOrderly(c: Config, n: nat, s: State)
    requires Reachable(c, n, s)
    ensures Orderly(s)
  {
    var acts :| Valid(c, Start(c, n), acts) && Exec(c, Start(c, n), acts) == s;
    ReachableStart(c, n);
    OrderlyRun(c, n, Start(c, n), acts);
  }

  // ---------------------------------------------------------------- the theorems

  /** Whatever happens, a waiter gets at most one result and is removed only with it. */
  lemma OneResultEach(c: Config, n: nat, s: State)
    requires Reachable(c, n, s)
    ensures forall i, j :: 0 <= i < j < |s.desk.delivered| ==> s.desk.delivered[i].asker != s.desk.delivered[j].asker
    ensures forall a: nat :: a < s.desk.askers ==> (Waits(s.desk, a) <==> !Served(s.desk, a))
  {
    ReachableOrderly(c, n, s);
  }

  /**
   What a waiter is given is a response the loop processed.  Every one so far answered the waiter's own
   request exactly if no posted message's response was delivered while its id, top bit aside, was a live
   waiter key.
   */
  lemma ResultsAreOwn(c: Config, n: nat, s: State)
    requires Reachable(c, n, s)
    ensures forall i :: 0 <= i < |s.desk.delivered| ==>
              Response(s.desk.delivered[i].mid, s.desk.delivered[i].answer) in s.sink.answered
    ensures !s.desk.collided <==> forall i :: 0 <= i < |s.desk.delivered| ==>
              OwnResult(s.chan.jobs, s.desk.delivered[i])
  {
    ReachableOrderly(c, n, s);
  }

  /** Without such a collision every processed response to a request has reached its waiter. */
  lemma ResultsArrive(c: Config, n: nat, s: State, k: nat)
    requires Reachable(c, n, s) && !s.desk.collided
    requires k < |s.chan.jobs| && s.chan.jobs[k].Asked? && MidOf(s.chan.jobs[k], k) in EventMids(s.sink.answered)
    ensures exists i :: 0 <= i < |s.desk.delivered|
                     && s.desk.delivered[i].asker == s.chan.jobs[k].asker
                         && s.desk.delivered[i].mid == MidOf(s.chan.jobs[k], k)
  {
    ReachableOrderly(c, n, s);
    var i :| 0 <= i < |s.desk.delivered| && s.desk.delivered[i].mid == MidOf(s.chan.jobs[k], k);
    assert OwnResult(s.chan.jobs, s.desk.delivered[i]);
  }

  /** The ids on the wire: a posted message keeps its own, a request goes out under its key with the top bit set. */
  lemma WireIds(c: Config, n: nat, s: State, k: nat)
    requires Reachable(c, n, s) && k < |s.chan.jobs|
    ensures var job, mid := s.chan.jobs[k], JobMids(s.chan.jobs)[k];
            && mid.id == k && (mid.req <==> job.Asked?)
            && (job.Posted? ==> mid.mid == job.mid)
            && (job.Asked? ==> mid.mid >= 0x8000_0000_0000_0000 && mid.mid % 0x8000_0000_0000_0000 == job.key)
  {
    ReachableOrderly(c, n, s);
  }

  // ---------------------------------------------------------------- a condition on what callers do

  /** The key, top bit aside, under which the response to a posted message is looked up. */
  predicate PostsUnder(a: Act, key: nat) {
    a.Client? && (a.client.Post? || a.client.Force?) && a.client.mid % TOP == key
  }

  predicate AsksUnder(a: Act, key: nat) {
    a.Client? && a.client.Ask? && a.client.key == key
  }

  ghost predicate PostedKey(acts: seq<Act>, key: nat) {
    exists i :: 0 <= i < |acts| && PostsUnder(acts[i], key)
  }

  ghost predicate AskedKey(acts: seq<Act>, key: nat) {
    exists i :: 0 <= i < |acts| && AsksUnder(acts[i], key)
  }

  /** No id posted in the run is, top bit aside, a key handed out in the run. */
  ghost predicate KeysApart(acts: seq<Act>) {
    forall key: nat :: !(PostedKey(acts, key) && AskedKey(acts, key))
  }

  /** Posted ids are in `posts`, live keys in `keys`, and nothing has collided. */
  ghost predicate Apart(s: State, posts: iset<nat>, keys: iset<nat>) {
    && (forall i :: 0 <= i < |s.gate.senders| ==> PostedIn(s.gate.senders[i], posts))
    && (forall k :: 0 <= k < |s.chan.jobs| && s.chan.jobs[k].Posted? ==> s.chan.jobs[k].mid % TOP in posts)
    && (forall k :: k in s.desk.waiters ==> k in keys)
    && !s.desk.collided
  }

  predicate PostedIn(x: Sender, posts: iset<nat>) {
    !x.Idle? && !x.Flagging? && x.job.Posted? ==> x.job.mid % TOP in posts
  }

  lemma ClientApart(c: Config, s: State, i: nat, x: ClientAct, posts: iset<nat>, keys: iset<nat>)
    requires Apart(s, posts, keys) && Enabled(c, s, Client(i, x))
    requires (x.Post? || x.Force? ==> x.mid % TOP in posts) && (x.Ask? ==> x.key in keys)
    ensures Apart(Apply(c, s, Client(i, x)), posts, keys)
  {
    assert PostedIn(s.gate.senders[i], posts);
    var s' := Apply(c, s, Client(i, x));
    forall j | 0 <= j < |s'.gate.senders|
      ensures PostedIn(s'.gate.senders[j], posts)
    {
      assert j != i ==> s'.gate.senders[j] == s.gate.senders[j] && PostedIn(s.gate.senders[j], posts);
    }
  }

  lemma NotifyApart(c: Config, s: State, posts: iset<nat>, keys: iset<nat>)
    requires Apart(s, posts, keys) && Enabled(c, s, Notify)
    ensures Apart(Apply(c, s, Notify), posts, keys)
  {
    var s' := Apply(c, s, Notify);
    forall j | 0 <= j < |s'.gate.senders|
      ensures PostedIn(s'.gate.senders[j], posts)
    {
      assert PostedIn(s.gate.senders[j], posts);
    }
  }

  lemma DeliverApart(c: Config, n: nat, s: State, posts: iset<nat>, keys: iset<nat>)
    requires Reachable(c, n, s) && Apart(s, posts, keys) && posts !! keys && Enabled(c, s, Deliver)
    ensures Apart(Apply(c, s, Deliver), posts, keys)
  {
    InHandFresh(c, n, s);
    var mid := s.sink.loop.mid;
    assert !mid.req ==> mid.mid % TOP in posts;
  }

  lemma ApartStep(c: Config, n: nat, s: State, a: Act, posts: iset<nat>, keys: iset<nat>)
    requires Reachable(c, n, s) && Apart(s, posts, keys) && posts !! keys && Enabled(c, s, a)
    requires forall key :: (PostsUnder(a, key) ==> key in posts) && (AsksUnder(a, key) ==> key in keys)
    ensures Apart(Apply(c, s, a), posts, keys)
  {
    match a {
      case Client(i, x) =>
        assert (x.Post? || x.Force?) ==> PostsUnder(a, x.mid % TOP);
        assert x.Ask? ==> AsksUnder(a, x.key);
        ClientApart(c, s, i, x, posts, keys);
      case Notify => NotifyApart(c, s, posts, keys);
      case Deliver => DeliverApart(c, n, s, posts, keys);
      case _ =>
    }
  }

  lemma {:induction false} ApartRun(c: Config, n: nat, s: State, acts: seq<Act>, posts: iset<nat>, keys: iset<nat>)
    requires Reachable(c, n, s) && Apart(s, posts, keys) && posts !! keys && Valid(c, s, acts)
    requires forall i, key :: 0 <= i < |acts| ==>
               (PostsUnder(acts[i], key) ==> key in posts) && (AsksUnder(acts[i], key) ==> key in keys)
    ensures Apart(Exec(c, s, acts), posts, keys)
    decreases |acts|
  {
    if acts != [] {
      ApartStep(c, n, s, acts[0], posts, keys);
      ReachableStep(c, n, s, acts[0]);
      forall i, key | 0 <= i < |acts[1..]|
        ensures (PostsUnder(acts[1..][i], key) ==> key in posts) && (AsksUnder(acts[1..][i], key) ==> key in keys)
      {
        assert acts[1..][i] == acts[i + 1];
      }
      ApartRun(c, n, Apply(c, s, acts[0]), acts[1..], posts, keys);
    }
  }

  /** The loop has processed a response with that id. */
  predicate Answers(k: Sink, m: Mid) {
    m in EventMids(k.answered)
  }

  /**
   If no id posted in a run equals, top bit aside, a key asked for in it, then every result so far answered the
   waiter's own request, and every processed response to a request has reached its waiter.
   */
  lemma ApartKeysPair(c: Config, n: nat, acts: seq<Act>)
    requires Valid(c, Start(c, n), acts) && KeysApart(acts)
    ensures var s := Exec(c, Start(c, n), acts);
      && !s.desk.collided
      && (forall i :: 0 <= i < |s.desk.delivered| ==> OwnResult(s.chan.jobs, s.desk.delivered[i]))
      && (forall k :: 0 <= k < |s.chan.jobs| && s.chan.jobs[k].Asked? && Answers(s.sink, MidOf(s.chan.jobs[k], k)) ==>
            Served(s.desk, s.chan.jobs[k].asker))
  {
    var posts := iset key: nat | PostedKey(acts, key);
    var keys := iset key: nat | AskedKey(acts, key);
    ReachableStart(c, n);
    ApartRun(c, n, Start(c, n), acts, posts, keys);
    var s := Exec(c, Start(c, n), acts);
    ResultsAreOwn(c, n, s);
    forall k | 0 <= k < |s.chan.jobs| && s.chan.jobs[k].Asked? && Answers(s.sink, MidOf(s.chan.jobs[k], k))
      ensures Served(s.desk, s.chan.jobs[k].asker)
    {
      ResultsArrive(c, n, s, k);
    }
  }
}
