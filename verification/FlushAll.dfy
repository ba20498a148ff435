/**
 `flush_all`: sweeping over the receivers until none asks for a flush, at most 32 times.

 A receiver's flush is taken as one atomic drain: its pending messages are handled, and their handlers
 send further messages.  `Net` says how: handlers only send to receivers of a higher rank.  For which
 receivers a flush is such a drain is the subject of `Barrier.FlushDrainsExactly`.
 */
module FlushAll {

  const FUSE: nat := 32

  /** `emit(tick, r, n)` is what handling n messages at receiver r, at that moment, sends to each receiver. */
  datatype Net = Net(rank: seq<nat>, emit: (nat, nat, nat) -> seq<nat>)

  ghost predicate Acyclic(net: Net, ranks: nat) {
    && (forall r :: 0 <= r < |net.rank| ==> net.rank[r] < ranks)
    && forall tick: nat, r: nat, n: nat | r < |net.rank| ::
         && |net.emit(tick, r, n)| == |net.rank|
         && forall j :: 0 <= j < |net.rank| && net.emit(tick, r, n)[j] > 0 ==> n > 0 && net.rank[r] < net.rank[j]
  }

  datatype Load = Load(pending: seq<nat>, need: seq<bool>, tick: nat)

  /** The flag is raised wherever a message is pending. */
  ghost predicate Flagged(net: Net, l: Load) {
    |l.pending| == |l.need| == |net.rank| && forall r :: 0 <= r < |l.pending| && l.pending[r] > 0 ==> l.need[r]
  }

  predicate InOrder(net: Net, order: seq<nat>) {
    (forall k :: 0 <= k < |order| ==> order[k] < |net.rank|) && forall r :: 0 <= r < |net.rank| ==> r in order
  }

  function Drain(net: Net, l: Load, r: nat): Load
    requires |l.pending| == |l.need| == |net.rank| && r < |net.rank|
    requires |net.emit(l.tick, r, l.pending[r])| == |net.rank|
  {
    var sent := net.emit(l.tick, r, l.pending[r]);
    Load(seq(|net.rank|, j requires 0 <= j < |net.rank| => sent[j] + if j == r then 0 else l.pending[j]),
         seq(|net.rank|, j requires 0 <= j < |net.rank| => if j == r then false else l.need[j] || sent[j] > 0),
         l.tick + 1)
  }

  ghost function SweepFrom(net: Net, ranks: nat, l: Load, order: seq<nat>, k: nat, flushed: bool): (r: (Load, bool))
    requires Acyclic(net, ranks) && Flagged(net, l) && InOrder(net, order) && k <= |order|
    ensures Flagged(net, r.0)
    decreases |order| - k
  {
    if k == |order| then (l, flushed)
    else if l.need[order[k]] then SweepFrom(net, ranks, Drain(net, l, order[k]), order, k + 1, true)
    else SweepFrom(net, ranks, l, order, k + 1, flushed)
  }

  ghost function Sweep(net: Net, ranks: nat, l: Load, order: seq<nat>): (r: (Load, bool))
    requires Acyclic(net, ranks) && Flagged(net, l) && InOrder(net, order)
    ensures Flagged(net, r.0)
  {
    SweepFrom(net, ranks, l, order, 0, false)
  }

  /** The state after up to `fuel` sweeps, whether the loop broke, and how many sweeps it made. */
  ghost function Sweeps(net: Net, ranks: nat, l: Load, orders: nat -> seq<nat>, i: nat,
      fuel: nat): (r: (Load, bool, nat))
    requires Acyclic(net, ranks) && Flagged(net, l) && forall n :: InOrder(net, orders(n))
    ensures Flagged(net, r.0)
    decreases fuel
  {
    if fuel == 0 then (l, false, i)
    else
      var (l', flushed) := Sweep(net, ranks, l, orders(i));
      if flushed then Sweeps(net, ranks, l', orders, i + 1, fuel - 1) else (l', true, i + 1)
  }

  // ---------------------------------------------------------------- the code

  class Bus {
    var pending: seq<nat>
    var need: seq<bool>
    var tick: nat
    const net: Net

    function View(): Load
      reads this
    {
      Load(pending, need, tick)
    }

    constructor (net: Net, l: Load)
      requires Flagged(net, l)
      ensures this.net == net && View() == l
    {
      this.net := net;
      pending, need, tick := l.pending, l.need, l.tick;
    }

    method Flush(r: nat)
      requires |pending| == |need| == |net.rank| && r < |net.rank|
      requires |net.emit(tick, r, pending[r])| == |net.rank|
      modifies this
      ensures View() == Drain(net, old(View()), r)
    {
      var sent := net.emit(tick, r, pending[r]);
      pending := pending[r := 0];
      need := need[r := false];
      var j := 0;
      while j < |net.rank|
        invariant 0 <= j <= |net.rank| == |pending| == |need|
        invariant forall i :: 0 <= i < |pending| ==>
          pending[i] == (if i == r then 0 else old(pending)[i]) + (if i < j then sent[i] else 0)
        invariant forall i :: 0 <= i < |need| ==> need[i] == (i != r && (old(need)[i] || (i < j && sent[i] > 0)))
        invariant tick == old(tick)
      {
        pending := pending[j := pending[j] + sent[j]];
        if sent[j] > 0 && j != r {
          need := need[j := true];
        }
        j := j + 1;
      }
      tick := tick + 1;
    }

    /** One sweep: flush whoever asks for it. */
    method SweepOnce(order: seq<nat>, ghost ranks: nat) returns (flushed: bool)
      requires Acyclic(net, ranks) && Flagged(net, View()) && InOrder(net, order)
      modifies this
      ensures (View(), flushed) == Sweep(net, ranks, old(View()), order)
    {
      flushed := false;
      var k := 0;
      while k < |order|
        invariant 0 <= k <= |order| && Flagged(net, View())
        invariant Sweep(net, ranks, old(View()), order) == SweepFrom(net, ranks, View(), order, k, flushed)
      {
        if need[order[k]] {
          flushed := true;
          Flush(order[k]);
        }
        k := k + 1;
      }
    }

    /** The loop, for any fuse. */
    method SweepUpTo(fuse: nat, orders: nat -> seq<nat>, ghost ranks: nat) returns (breaked: bool, iters: nat)
      requires Acyclic(net, ranks) && Flagged(net, View()) && forall n :: InOrder(net, orders(n))
      modifies this
      ensures (View(), breaked, iters) == Sweeps(net, ranks, old(View()), orders, 0, fuse)
    {
      breaked, iters := false, 0;
      while iters < fuse
        invariant 0 <= iters <= fuse && !breaked && Flagged(net, View())
        invariant Sweeps(net, ranks, old(View()), orders, 0, fuse)
                  == Sweeps(net, ranks, View(), orders, iters, fuse - iters)
      {
        var flushed := SweepOnce(orders(iters), ranks);
        iters := iters + 1;
        if !flushed {
          breaked := true;
          return;
        }
      }
    }

    method FlushAll(orders: nat -> seq<nat>, ghost ranks: nat) returns (breaked: bool, iters: nat)
      requires Acyclic(net, ranks) && Flagged(net, View()) && forall n :: InOrder(net, orders(n))
      modifies this
      ensures (View(), breaked, iters) == Sweeps(net, ranks, old(View()), orders, 0, FUSE)
      ensures breaked ==> Empty(View())
      ensures ranks <= 31 ==> breaked && iters <= ranks + 1
    {
      Equilibrium(net, ranks, View(), orders);
      breaked, iters := SweepUpTo(FUSE, orders, ranks);
    }
  }

  // ---------------------------------------------------------------- reaching equilibrium

  /** No receiver below this rank asks for a flush. */
  ghost predicate CalmBelow(net: Net, l: Load, rank: nat) {
    |l.need| == |net.rank| && forall r :: 0 <= r < |net.rank| && net.rank[r] < rank ==> !l.need[r]
  }

  /** ... nor any receiver of this rank visited so far in the sweep. */
  ghost predicate CalmVisited(net: Net, l: Load, rank: nat, order: seq<nat>, k: nat) {
    |l.need| == |net.rank| && k <= |order|
    && forall i :: 0 <= i < k && order[i] < |net.rank| && net.rank[order[i]] == rank ==> !l.need[order[i]]
  }

  lemma DrainCalm(net: Net, ranks: nat, l: Load, rank: nat, order: seq<nat>, k: nat)
    requires Acyclic(net, ranks) && Flagged(net, l) && InOrder(net, order) && k < |order| && l.need[order[k]]
    requires CalmBelow(net, l, rank) && CalmVisited(net, l, rank, order, k)
    ensures CalmBelow(net, Drain(net, l, order[k]), rank)
              && CalmVisited(net, Drain(net, l, order[k]), rank, order, k + 1)
  {
    assert net.rank[order[k]] >= rank;
  }

  /** One sweep silences one more rank: whoever could still disturb it is silent already. */
  lemma {:induction false} SweepCalm(net: Net, ranks: nat, l: Load, rank: nat, order: seq<nat>, k: nat, flushed: bool)
    requires Acyclic(net, ranks) && Flagged(net, l) && InOrder(net, order) && k <= |order|
    requires CalmBelow(net, l, rank) && CalmVisited(net, l, rank, order, k)
    ensures CalmBelow(net, SweepFrom(net, ranks, l, order, k, flushed).0, rank + 1)
    decreases |order| - k
  {
    if k == |order| {
      forall r | 0 <= r < |net.rank| && net.rank[r] < rank + 1
        ensures !l.need[r]
      {
        assert r in order;
      }
    } else if l.need[order[k]] {
      DrainCalm(net, ranks, l, rank, order, k);
      SweepCalm(net, ranks, Drain(net, l, order[k]), rank, order, k + 1, true);
    } else {
      SweepCalm(net, ranks, l, rank, order, k + 1, flushed);
    }
  }

  /** A sweep that finds nobody to flush leaves everything as it is, and finds nothing pending. */
  lemma {:induction false} IdleSweep(net: Net, ranks: nat, l: Load, order: seq<nat>, k: nat)
    requires Acyclic(net, ranks) && Flagged(net, l) && InOrder(net, order) && k <= |order|
    ensures forall i :: k <= i < |order| && !SweepFrom(net, ranks, l, order, k, false).1 ==> !l.need[order[i]]
    ensures !SweepFrom(net, ranks, l, order, k, false).1 ==> SweepFrom(net, ranks, l, order, k, false).0 == l
    ensures (forall i :: k <= i < |order| ==> !l.need[order[i]]) ==> !SweepFrom(net, ranks, l, order, k, false).1
    decreases |order| - k
  {
    if k < |order| {
      if l.need[order[k]] {
        Sticky(net, ranks, Drain(net, l, order[k]), order, k + 1);
      } else {
        IdleSweep(net, ranks, l, order, k + 1);
      }
    }
  }

  lemma {:induction false} Sticky(net: Net, ranks: nat, l: Load, order: seq<nat>, k: nat)
    requires Acyclic(net, ranks) && Flagged(net, l) && InOrder(net, order) && k <= |order|
    ensures SweepFrom(net, ranks, l, order, k, true).1
    decreases |order| - k
  {
    if k < |order| {
      Sticky(net, ranks, if l.need[order[k]] then Drain(net, l, order[k]) else l, order, k + 1);
    }
  }

  predicate Empty(l: Load) {
    forall r :: 0 <= r < |l.pending| ==> l.pending[r] == 0
  }

  lemma IdleIsEmpty(net: Net, ranks: nat, l: Load, order: seq<nat>)
    requires Acyclic(net, ranks) && Flagged(net, l) && InOrder(net, order)
    requires !Sweep(net, ranks, l, order).1
    ensures Empty(Sweep(net, ranks, l, order).0)
  {
    IdleSweep(net, ranks, l, order, 0);
    forall r | 0 <= r < |l.pending|
      ensures l.pending[r] == 0
    {
      assert r in order;
      var i :| 0 <= i < |order| && order[i] == r;
      assert !l.need[order[i]];
    }
  }

  lemma CalmAllIdle(net: Net, ranks: nat, l: Load, order: seq<nat>)
    requires Acyclic(net, ranks) && Flagged(net, l) && InOrder(net, order) && CalmBelow(net, l, ranks)
    ensures !Sweep(net, ranks, l, order).1
  {
    IdleSweep(net, ranks, l, order, 0);
    assert forall i :: 0 <= i < |order| ==> !l.need[order[i]];
  }

  /** With r ranks still to silence, r + 1 sweeps are enough, and a broken loop leaves nothing pending. */
  lemma {:induction false} SweepsSettle(net: Net, ranks: nat, l: Load, orders: nat -> seq<nat>, i: nat, fuel: nat,
      calm: nat)
    requires Acyclic(net, ranks) && Flagged(net, l) && forall n :: InOrder(net, orders(n))
    requires CalmBelow(net, l, calm) && calm <= ranks
    ensures var (l', breaked, iters) := Sweeps(net, ranks, l, orders, i, fuel);
      && (breaked ==> Empty(l'))
      && (ranks - calm + 1 <= fuel ==> breaked && iters <= i + ranks - calm + 1)
    decreases fuel
  {
    if fuel > 0 {
      var order := orders(i);
      var (l', flushed) := Sweep(net, ranks, l, order);
      if calm == ranks {
        CalmAllIdle(net, ranks, l, order);
        IdleIsEmpty(net, ranks, l, order);
      } else if flushed {
        SweepCalm(net, ranks, l, calm, order, 0, false);
        SweepsSettle(net, ranks, l', orders, i + 1, fuel - 1, calm + 1);
      } else {
        IdleIsEmpty(net, ranks, l, order);
      }
    }
  }

  /**
   With at most 31 ranks of receivers the loop breaks, after at most one sweep more than there are ranks,
   whatever the order of each sweep; and whenever it breaks no message is pending.
   */
  lemma Equilibrium(net: Net, ranks: nat, l: Load, orders: nat -> seq<nat>)
    requires Acyclic(net, ranks) && Flagged(net, l) && forall n :: InOrder(net, orders(n))
    ensures var (l', breaked, iters) := Sweeps(net, ranks, l, orders, 0, FUSE);
      && (breaked ==> Empty(l'))
      && (ranks + 1 <= FUSE ==> breaked && iters <= ranks + 1)
  {
    SweepsSettle(net, ranks, l, orders, 0, FUSE, 0);
  }

  // ---------------------------------------------------------------- a drain that is interrupted

  /** The handlers of r do what is pending; the flag of r stays as it is. */
  function Work(net: Net, l: Load, r: nat): Load
    requires |l.pending| == |l.need| == |net.rank| && r < |net.rank|
    requires |net.emit(l.tick, r, l.pending[r])| == |net.rank|
  {
    Drain(net, l, r).(need := Drain(net, l, r).need[r := l.need[r]])
  }

  /** The loop of r takes a Flushed. */
  function Lower(l: Load, r: nat): Load
    requires r < |l.need|
  {
    l.(need := l.need[r := false])
  }

  /** Draining a receiver handles what is pending there, and loses nothing of what its handlers send. */
  lemma DrainMoves(net: Net, ranks: nat, l: Load, r: nat, j: nat)
    requires Acyclic(net, ranks) && Flagged(net, l) && r < |net.rank| && j < |net.rank|
    ensures var l' := Drain(net, l, r); var sent := net.emit(l.tick, r, l.pending[r]);
            && l'.pending[j] == (if j == r then 0 else l.pending[j] + sent[j])
            && (l'.need[j] <==> j != r && (l.need[j] || sent[j] > 0))
  {
  }

  lemma DrainIsWorkThenLower(net: Net, ranks: nat, l: Load, r: nat)
    requires Acyclic(net, ranks) && Flagged(net, l) && r < |net.rank|
    ensures Drain(net, l, r) == Lower(Work(net, l, r), r)
  {
    var drained := Drain(net, l, r);
    assert drained.need[r := l.need[r]][r := false] == drained.need;
  }

  /**
   Why the drain has to be atomic.  If a handler elsewhere sends to j between the work of j's flush and the moment
   j's loop lowers the flag, then j is left with a message pending and the flag down, and no sweep will return to it.
   */
  lemma InterruptedFlush(net: Net, ranks: nat, l: Load, r: nat, j: nat)
    requires Acyclic(net, ranks) && Flagged(net, l) && r < |net.rank| && j < |net.rank| && r != j
    requires var l1 := Work(net, l, j); net.emit(l1.tick, r, l1.pending[r])[j] > 0
    ensures var l3 := Lower(Work(net, Work(net, l, j), r), j);
            l3.pending[j] > 0 && !l3.need[j] && !Flagged(net, l3)
  {
    var l1 := Work(net, l, j);
    var l2 := Work(net, l1, r);
    assert l2.pending[j] > 0;
  }

  // ---------------------------------------------------------------- the fuse is exactly long enough

  /** Receivers in a chain, each of which passes one message on when it is drained. */
  ghost predicate IsChain(net: Net, d: nat) {
    && |net.rank| == d && (forall i :: 0 <= i < d ==> net.rank[i] == i)
    && (forall tick: nat, r: nat, n: nat | r < d :: |net.emit(tick, r, n)| == d)
    && (forall tick: nat, r: nat, n: nat, j: nat | r < d && j < d ::
          net.emit(tick, r, n)[j] == if n > 0 && j == r + 1 then 1 else 0)
  }

  /** One message, at receiver k; none at all for k = d. */
  predicate IsAt(l: Load, d: nat, k: nat) {
    && |l.pending| == |l.need| == d
    && forall j :: 0 <= j < d ==> l.pending[j] == (if j == k then 1 else 0) && (l.need[j] <==> j == k)
  }

  /** The sweep that meets the chain in the worst order. */
  predicate IsBackwards(order: seq<nat>, d: nat) {
    |order| == d && forall i :: 0 <= i < d ==> order[i] == d - 1 - i
  }

  lemma ChainOk(net: Net, d: nat, l: Load, k: nat)
    requires IsChain(net, d) && IsAt(l, d, k)
    ensures Acyclic(net, d) && Flagged(net, l)
  {
  }

  lemma BackwardsOk(net: Net, d: nat, order: seq<nat>)
    requires IsChain(net, d) && IsBackwards(order, d)
    ensures InOrder(net, order)
  {
    forall r | 0 <= r < d
      ensures r in order
    {
      assert order[d - 1 - r] == r;
    }
  }

  /** A sweep in which only the q-th receiver wants a flush, and draining it makes an earlier one want one. */
  lemma {:induction false} MoveSweep(net: Net, ranks: nat, l: Load, l': Load, order: seq<nat>, q: nat, p: nat)
    requires Acyclic(net, ranks) && Flagged(net, l) && Flagged(net, l') && InOrder(net, order)
    requires q < |order| && p <= |order|
    requires forall i :: 0 <= i < |order| ==> (l.need[order[i]] <==> i == q)
    requires forall i :: q < i < |order| ==> !l'.need[order[i]]
    requires Drain(net, l, order[q]) == l'
    ensures p <= q ==> SweepFrom(net, ranks, l, order, p, false) == (l', true)
    ensures p > q ==> SweepFrom(net, ranks, l', order, p, true) == (l', true)
    decreases |order| - p
  {
    if p < |order| {
      MoveSweep(net, ranks, l, l', order, q, p + 1);
    }
  }

  lemma ChainDrain(net: Net, d: nat, l: Load, k: nat)
    requires IsChain(net, d) && IsAt(l, d, k) && k < d
    ensures |net.emit(l.tick, k, l.pending[k])| == d && IsAt(Drain(net, l, k), d, k + 1)
  {
  }

  /** Each sweep moves the message by one receiver. */
  lemma ChainSweep(net: Net, d: nat, l: Load, k: nat, order: seq<nat>)
    requires IsChain(net, d) && IsAt(l, d, k) && k < d && IsBackwards(order, d)
    requires Acyclic(net, d) && Flagged(net, l) && InOrder(net, order)
    ensures Sweep(net, d, l, order).1 && IsAt(Sweep(net, d, l, order).0, d, k + 1)
  {
    ChainDrain(net, d, l, k);
    var l' := Drain(net, l, k);
    ChainOk(net, d, l', k + 1);
    MoveSweep(net, d, l, l', order, d - 1 - k, 0);
  }

  lemma {:induction false} ChainSweeps(net: Net, d: nat, l: Load, k: nat, orders: nat -> seq<nat>, i: nat, fuel: nat)
    requires IsChain(net, d) && IsAt(l, d, k) && k + fuel <= d
    requires forall n :: IsBackwards(orders(n), d) && InOrder(net, orders(n))
    requires Acyclic(net, d) && Flagged(net, l)
    ensures !Sweeps(net, d, l, orders, i, fuel).1
    decreases fuel
  {
    if fuel > 0 {
      ChainSweep(net, d, l, k, orders(i));
      ChainSweeps(net, d, Sweep(net, d, l, orders(i)).0, k + 1, orders, i + 1, fuel - 1);
    }
  }

  function PassOn(d: nat, r: nat, n: nat): (s: seq<nat>)
    ensures |s| == d && forall j :: 0 <= j < d ==> s[j] == if n > 0 && j == r + 1 then 1 else 0
  {
    seq(d, j => if n > 0 && j == r + 1 then 1 else 0)
  }

  lemma ChainNet(d: nat) returns (net: Net)
    ensures IsChain(net, d)
  {
    net := Net(seq(d, i => i), (tick, r, n) => PassOn(d, r, n));
  }

  lemma ChainLoad(d: nat) returns (l: Load)
    ensures IsAt(l, d, 0)
  {
    l := Load(seq(d, j => if j == 0 then 1 else 0), seq(d, j => j == 0), 0);
  }

  function Backwards(d: nat): (order: seq<nat>)
    ensures IsBackwards(order, d)
  {
    seq(d, i requires 0 <= i < d => d - 1 - i)
  }

  /** Whatever the net with that many ranks, the load and the sweep orders, the loop breaks. */
  ghost predicate AlwaysSettles(ranks: nat) {
    forall net: Net, l: Load, orders: nat -> seq<nat> |
      Acyclic(net, ranks) && Flagged(net, l) && (forall n :: InOrder(net, orders(n))) ::
      Sweeps(net, ranks, l, orders, 0, FUSE).1
  }

  lemma FuseTooShort(net: Net, ranks: nat, l: Load, orders: nat -> seq<nat>)
    requires Acyclic(net, ranks) && Flagged(net, l) && forall n :: InOrder(net, orders(n))
    requires !Sweeps(net, ranks, l, orders, 0, FUSE).1
    ensures !AlwaysSettles(ranks)
  {
  }

  /** The fuse of 32 is long enough exactly for nets of at most 31 ranks. */
  lemma FuseFits(ranks: nat)
    ensures AlwaysSettles(ranks) <==> ranks <= 31
  {
    if ranks + 1 <= FUSE {
      forall net: Net, l: Load, orders: nat -> seq<nat> |
        Acyclic(net, ranks) && Flagged(net, l) && (forall n :: InOrder(net, orders(n)))
        ensures Sweeps(net, ranks, l, orders, 0, FUSE).1
      {
        Equilibrium(net, ranks, l, orders);
      }
    } else {
      var net := ChainNet(ranks);
      var l := ChainLoad(ranks);
      var orders := (n: nat) => Backwards(ranks);
      ChainOk(net, ranks, l, 0);
      forall n ensures InOrder(net, orders(n)) {
        BackwardsOk(net, ranks, orders(n));
      }
      ChainSweeps(net, ranks, l, 0, orders, 0, FUSE);
      FuseTooShort(net, ranks, l, orders);
    }
  }
}
