/**
 When posted messages can take the waiters of requests: a condition on the ids and keys the callers use.
 */
module Collision {
  import opened Machine
  import opened Formation
  import opened Ledger
  import opened Invariant
  import opened Progress
  import opened Barrier
  import opened Meaning
  import opened Pairing

  /** A key of the waiter table; ids are looked up under them without their top bit. */
  type Key = k: nat | k < TOP

  /** Ids are posted under `posts` only, and keys asked for are in `keys`. */
  predicate StaysAct(a: Act, posts: iset<Key>, keys: iset<Key>) {
    a.Client? ==>
      && (a.client.Post? || a.client.Force? ==> a.client.mid % TOP in posts)
      && (a.client.Ask? ==> a.client.key < TOP && a.client.key in keys)
  }

  predicate Stays(acts: seq<Act>, posts: iset<Key>, keys: iset<Key>) {
    forall i :: 0 <= i < |acts| ==> StaysAct(acts[i], posts, keys)
  }

  ghost predicate OwnResults(s: State) {
    forall i :: 0 <= i < |s.desk.delivered| ==> OwnResult(s.chan.jobs, s.desk.delivered[i])
  }

  /** Whoever keeps to these ids and keys gets nothing but results of his own. */
  ghost predicate PairsFor(c: Config, posts: iset<Key>, keys: iset<Key>) {
    forall n: nat, acts: seq<Act> | Valid(c, Start(c, n), acts) && Stays(acts, posts, keys) ::
      OwnResults(Exec(c, Start(c, n), acts))
  }

  // ---------------------------------------------------------------- ids and keys apart

  lemma ApartPairs(c: Config, n: nat, acts: seq<Act>, posts: iset<Key>, keys: iset<Key>)
    requires Valid(c, Start(c, n), acts) && Stays(acts, posts, keys) && posts !! keys
    ensures OwnResults(Exec(c, Start(c, n), acts))
  {
    forall key: nat | PostedKey(acts, key)
      ensures key < TOP && key in posts
    {
      var i :| 0 <= i < |acts| && PostsUnder(acts[i], key);
      assert StaysAct(acts[i], posts, keys);
    }
    forall key: nat | AskedKey(acts, key)
      ensures key < TOP && key in keys
    {
      var i :| 0 <= i < |acts| && AsksUnder(acts[i], key);
      assert StaysAct(acts[i], posts, keys);
    }
    ApartKeysPair(c, n, acts);
  }

  /** Where no handler can run nobody gets anything. */
  lemma NothingDelivered(c: Config, n: nat, s: State)
    requires Idles(c) && Reachable(c, n, s)
    ensures s.desk.delivered == []
  {
    NoTasks(c, n, s);
    ReachableLedger(c, n, s);
    assert |multiset(EventMids(s.sink.answered))| == 0;
    assert EventMids(s.sink.answered) == [];
    ResultsAreOwn(c, n, s);
    if s.desk.delivered != [] {
      MidsOf(s.sink.answered, Response(s.desk.delivered[0].mid, s.desk.delivered[0].answer));
      assert false;
    }
  }

  lemma {:induction false} MidsOf(es: seq<Event>, e: Event)
    requires e in es && e.Response?
    ensures e.mid in EventMids(es)
  {
    TakeMids(es);
    if es[0] != e {
      MidsOf(es[1..], e);
    }
  }

  // ---------------------------------------------------------------- an id that is a key

  lemma Then(c: Config, posts: iset<Key>, keys: iset<Key>, acts: seq<Act>, a: Act) returns (acts': seq<Act>, s': State)
    requires Valid(c, Start(c, 2), acts) && Stays(acts, posts, keys)
    requires Enabled(c, Exec(c, Start(c, 2), acts), a) && StaysAct(a, posts, keys)
    ensures Valid(c, Start(c, 2), acts') && Stays(acts', posts, keys)
    ensures s' == Exec(c, Start(c, 2), acts') == Apply(c, Exec(c, Start(c, 2), acts), a)
  {
    acts' := acts + [a];
    OneStep(c, Exec(c, Start(c, 2), acts), a);
    ExecAppend(c, Start(c, 2), acts, [a]);
    s' := Exec(c, Start(c, 2), acts');
  }

  lemma AskFirst(c: Config, msg: Msg, key: Key, posts: iset<Key>, keys: iset<Key>) returns (acts: seq<Act>, s: State)
    requires key in keys
    ensures Valid(c, Start(c, 2), acts) && Stays(acts, posts, keys) && s == Exec(c, Start(c, 2), acts)
    ensures |s.gate.senders| == 2 && s.gate.senders[0] == Idle && s.chan == Start(c, 2).chan
    ensures s.desk == Desk(map[key := 0], 1, [], false) && s.sink == Start(c, 2).sink
  {
    acts, s := Then(c, posts, keys, [], Client(1, Ask(key, msg)));
  }

  /** An asker waits under the key while a message posted with that id is accepted, and a Flush behind it. */
  lemma AskedAndPosted(c: Config, msg: Msg, key: Key, posts: iset<Key>, keys: iset<Key>)
    returns (acts: seq<Act>, s: State)
    requires key in posts && key in keys
    ensures Valid(c, Start(c, 2), acts) && Stays(acts, posts, keys) && s == Exec(c, Start(c, 2), acts)
    ensures s.chan.jobs == [Posted(key, msg)] && LastIsFlush(s.chan.enqueued) && Control(Close) !in s.chan.enqueued
    ensures s.desk == Desk(map[key := 0], 1, [], false) && s.sink == Start(c, 2).sink
  {
    acts, s := AskFirst(c, msg, key, posts, keys);
    acts, s := Then(c, posts, keys, acts, Client(0, Force(key, msg)));
    acts, s := Then(c, posts, keys, acts, Client(0, Send));
    assert s.chan.jobs == [Posted(key, msg)];
    acts, s := Then(c, posts, keys, acts, Push(Flush));
  }

  /** Either the posted message's response is still to come, or it has taken the asker's waiter. */
  ghost predicate Primed(d: Desk, answered: seq<Event>, key: Key) {
    if d.collided then
      d.waiters == map[] && |d.delivered| == 1 && d.delivered[0].asker == 0 && d.delivered[0].mid == Mid(key, false, 0)
    else
      d.waiters == map[key := 0] && d.delivered == [] && answered == []
  }

  lemma PrimedStep(c: Config, s: State, a: Act, key: Key, msg: Msg)
    requires Reachable(c, 2, s) && s.chan.jobs == [Posted(key, msg)] && Primed(s.desk, s.sink.answered, key)
    requires Internal(a) && Enabled(c, s, a)
    ensures var t := Apply(c, s, a);
            && t.chan.jobs == s.chan.jobs && t.chan.enqueued == s.chan.enqueued
            && Primed(t.desk, t.sink.answered, key)
  {
    if a.Deliver? {
      InHandFresh(c, 2, s);
      assert s.sink.loop.mid == Mid(key, false, 0);
      var t := Apply(c, s, a);
      if !s.desk.collided {
        assert t.desk.waiters == map[];
      }
    }
  }

  lemma {:induction false} PrimedRun(c: Config, s: State, acts: seq<Act>, key: Key, msg: Msg)
    requires Reachable(c, 2, s) && s.chan.jobs == [Posted(key, msg)] && Primed(s.desk, s.sink.answered, key)
    requires Valid(c, s, acts) && AllInternal(acts)
    ensures var t := Exec(c, s, acts);
            && t.chan.jobs == s.chan.jobs && t.chan.enqueued == s.chan.enqueued
            && Primed(t.desk, t.sink.answered, key)
    decreases |acts|
  {
    if acts != [] {
      PrimedStep(c, s, acts[0], key, msg);
      ReachableStep(c, 2, s, acts[0]);
      PrimedRun(c, Apply(c, s, acts[0]), acts[1..], key, msg);
    }
  }

  /** Once the receiver has come to a halt, the waiter is taken. */
  lemma HaltedCollided(c: Config, s: State, key: Key, msg: Msg, out: Outcome)
    requires Reachable(c, 2, s) && Stuck(c, s) && ValidOutcome(c, out) && !Idles(c)
    requires s.chan.jobs == [Posted(key, msg)] && LastIsFlush(s.chan.enqueued) && Control(Close) !in s.chan.enqueued
    requires Primed(s.desk, s.sink.answered, key)
    ensures s.desk.collided
  {
    ReachableFormed(c, 2, s);
    assert s.chan.open;
    FlushSettles(c, 2, s, out);
    SettledAnswers(c, 2, s);
    assert |multiset(EventMids(s.sink.answered))| == |JobMids(s.chan.jobs)| == 1;
  }

  /**
   For every kind that can run a handler and every key: the response to a message posted with that id goes to
   whoever waits under the key, who here has not even sent his request.
   */
  lemma PostedTakesWaiter(c: Config, msg: Msg, out: Outcome, key: Key, posts: iset<Key>, keys: iset<Key>)
    returns (acts: seq<Act>)
    requires !Idles(c) && ValidOutcome(c, out) && key in posts && key in keys
    ensures Valid(c, Start(c, 2), acts) && Stays(acts, posts, keys)
    ensures var d := Exec(c, Start(c, 2), acts).desk;
            d.collided && |d.delivered| == 1 && d.delivered[0].asker == 0 && d.delivered[0].mid == Mid(key, false, 0)
  {
    var before, s := AskedAndPosted(c, msg, key, posts, keys);
    assert Reachable(c, 2, s);
    var rest := MaximalRun(c, 2, s);
    PrimedRun(c, s, rest, key, msg);
    ReachableRun(c, 2, s, rest);
    HaltedCollided(c, Exec(c, s, rest), key, msg, out);
    ExecAppend(c, Start(c, 2), before, rest);
    acts := before + rest;
    assert forall k :: 0 <= k < |rest| ==> Internal(rest[k]);
  }

  /**
   Results are always the waiters' own exactly if no id is posted, top bit aside, that is also asked for as a key
   (or if no handler can run at all).
   */
  lemma PairsExactly(c: Config, posts: iset<Key>, keys: iset<Key>, msg: Msg, out: Outcome)
    requires ValidOutcome(c, out)
    ensures PairsFor(c, posts, keys) <==> posts !! keys || Idles(c)
  {
    if Idles(c) {
      forall n: nat, acts: seq<Act> | Valid(c, Start(c, n), acts) && Stays(acts, posts, keys)
        ensures OwnResults(Exec(c, Start(c, n), acts))
      {
        assert Reachable(c, n, Exec(c, Start(c, n), acts));
        NothingDelivered(c, n, Exec(c, Start(c, n), acts));
      }
    } else if posts !! keys {
      forall n: nat, acts: seq<Act> | Valid(c, Start(c, n), acts) && Stays(acts, posts, keys)
        ensures OwnResults(Exec(c, Start(c, n), acts))
      {
        ApartPairs(c, n, acts, posts, keys);
      }
    } else {
      var key :| key in posts && key in keys;
      var acts := PostedTakesWaiter(c, msg, out, key, posts, keys);
      var s := Exec(c, Start(c, 2), acts);
      assert Reachable(c, 2, s);
      ResultsAreOwn(c, 2, s);
      assert !OwnResults(s);
    }
  }
}
