/**
 `try_send`: reserving a slot at every receiver of a message, or at none.
 */
module Broadcast {

  type Msg(!new, ==)

  /** A receiver as the broadcast sees it: its counter, its limit and its channel. */
  datatype Lane = Lane(processing: int, limit: int, open: bool, inbox: seq<(nat, Msg)>, needFlush: bool)

  type Lanes = map<nat, Lane>

  predicate NoRepeats(rs: seq<nat>) {
    forall i, j :: 0 <= i < j < |rs| ==> rs[i] != rs[j]
  }

  predicate Room(l: Lane) {
    l.processing < l.limit
  }

  function Bump(l: Lane, step: int): Lane {
    l.(processing := l.processing + step)
  }

  /** One slot more, or less, at each of these receivers. */
  function BumpAll(lanes: Lanes, rs: seq<nat>, step: int): Lanes {
    map r | r in lanes :: if r in rs then Bump(lanes[r], step) else lanes[r]
  }

  /** What a send does to a receiver whose slot is already reserved; a closed one keeps the slot. */
  function Receive(l: Lane, mid: nat, msg: Msg): Lane {
    l.(inbox := if l.open then l.inbox + [(mid, msg)] else l.inbox, needFlush := true)
  }

  function Delivered(lanes: Lanes, rs: seq<nat>, mid: nat, msg: Msg): Lanes {
    map r | r in lanes :: if r in rs then Bump(Receive(lanes[r], mid, msg), 1) else lanes[r]
  }

  datatype SendResult = Sent | Closed | Full

  class Bus {
    var lanes: Lanes
    var closed: bool
    var nextMid: nat
    const lookup: map<string, seq<nat>>

    /** Every listed receiver exists and is listed once. */
    ghost predicate Valid()
      reads this
    {
      forall tag :: tag in lookup ==> NoRepeats(lookup[tag]) && forall r :: r in lookup[tag] ==> r in lanes
    }

    constructor (lanes: Lanes, lookup: map<string, seq<nat>>)
      requires forall tag :: tag in lookup ==> NoRepeats(lookup[tag]) && forall r :: r in lookup[tag] ==> r in lanes
      ensures Valid() && this.lanes == lanes && this.lookup == lookup && !closed
    {
      this.lanes := lanes;
      this.lookup := lookup;
      closed := false;
      nextMid := 1;
    }

    /** Drops the permits collected so far: each frees its slot. */
    method DropPermits(permits: seq<nat>)
      requires NoRepeats(permits) && forall r :: r in permits ==> r in lanes
      modifies this`lanes
      ensures lanes == BumpAll(old(lanes), permits, -1)
    {
      var i := 0;
      while i < |permits|
        invariant 0 <= i <= |permits|
        invariant lanes == BumpAll(old(lanes), permits[..i], -1)
      {
        var r := permits[i];
        assert permits[..i + 1] == permits[..i] + [r] && r !in permits[..i];
        lanes := lanes[r := Bump(lanes[r], -1)];
        i := i + 1;
      }
      assert permits[..i] == permits;
    }

    method TryReserve(rs: seq<nat>) returns (permits: seq<nat>, ok: bool)
      requires NoRepeats(rs) && forall r :: r in rs ==> r in lanes
      modifies this`lanes
      ensures ok <==> forall r :: r in rs ==> old(lanes)[r].processing < old(lanes)[r].limit
      ensures ok ==> permits == rs && lanes == BumpAll(old(lanes), rs, 1)
      ensures ok ==> forall r :: r in lanes ==>
                lanes[r] == old(lanes)[r].(processing := old(lanes)[r].processing + if r in rs then 1 else 0)
      ensures !ok ==> permits == [] && lanes == old(lanes)
    {
      permits := [];
      var i := 0;
      while i < |rs|
        invariant 0 <= i <= |rs| && permits == rs[..i]
        invariant lanes == BumpAll(old(lanes), rs[..i], 1)
        invariant forall j :: 0 <= j < i ==> Room(old(lanes)[rs[j]])
      {
        var r := rs[i];
        assert r !in rs[..i] && lanes[r] == old(lanes)[r];
        if Room(lanes[r]) {
          assert rs[..i + 1] == rs[..i] + [r];
          lanes := lanes[r := Bump(lanes[r], 1)];
          permits := permits + [r];
        } else {
          DropPermits(permits);
          return [], false;
        }
        i := i + 1;
      }
      assert rs[..i] == rs;
      return permits, true;
    }

    /** `send` on one receiver: deliver if its channel is open, fuse the permit either way. */
    method SendOne(r: nat, mid: nat, msg: Msg)
      requires r in lanes
      modifies this`lanes
      ensures lanes == old(lanes)[r := Receive(old(lanes)[r], mid, msg)]
    {
      var l := lanes[r];
      if l.open {
        l := l.(inbox := l.inbox + [(mid, msg)]);
      }
      lanes := lanes[r := l.(needFlush := true)];
    }

    /**
     All or nothing: either every receiver for the tag has one slot taken and every open one gets exactly
     one copy under the same id, or nothing changes but the id counter.
     */
    method TrySend(tag: string, msg: Msg) returns (res: SendResult, mid: nat)
      requires Valid()
      modifies this`lanes, this`nextMid
      ensures Valid()
      ensures res.Closed? <==> closed
      ensures closed ==> nextMid == old(nextMid)
      ensures !closed ==> mid == old(nextMid) && nextMid == mid + 1
      ensures res.Full? <==>
                && !closed && tag in lookup
                && exists r :: r in lookup[tag] && old(lanes)[r].processing >= old(lanes)[r].limit
      ensures (forall r :: r in old(lanes) ==> old(lanes)[r].processing <= old(lanes)[r].limit) ==>
                forall r :: r in lanes ==> lanes[r].processing <= lanes[r].limit
      ensures !res.Sent? ==> lanes == old(lanes)
      ensures res.Sent? ==> lanes == Delivered(old(lanes), if tag in lookup then lookup[tag] else [], mid, msg)
    {
      if closed {
        return Closed, 0;
      }
      mid := nextMid;
      nextMid := nextMid + 1;
      if tag in lookup {
        var rs := lookup[tag];
        var permits, ok := TryReserve(rs);
        if !ok {
          return Full, mid;
        }
        var counter, total := 1, |rs|;
        var next := 0;
        while counter < total
          invariant 0 <= next <= total && (next < total ==> counter == next + 1) && (total > 0 ==> next < total)
          invariant lanes == Partly(old(lanes), rs, next, mid, msg)
          invariant nextMid == mid + 1
        {
          SendOne(rs[next], mid, msg);
          PartlyNext(old(lanes), rs, next, mid, msg);
          next, counter := next + 1, counter + 1;
        }
        if next < total {
          SendOne(rs[next], mid, msg);
          PartlyNext(old(lanes), rs, next, mid, msg);
          next := next + 1;
        }
        assert rs[..next] == rs;
      }
      res := Sent;
    }
  }

  /** All slots reserved, the first k copies delivered. */
  function Partly(lanes: Lanes, rs: seq<nat>, k: nat, mid: nat, msg: Msg): Lanes
    requires k <= |rs|
  {
    map r | r in lanes ::
      if r in rs[..k] then Bump(Receive(lanes[r], mid, msg), 1)
      else if r in rs then Bump(lanes[r], 1)
      else lanes[r]
  }

  lemma PartlyNext(lanes: Lanes, rs: seq<nat>, k: nat, mid: nat, msg: Msg)
    requires NoRepeats(rs) && k < |rs| && forall r :: r in rs ==> r in lanes
    ensures var now := Partly(lanes, rs, k, mid, msg);
      Partly(lanes, rs, k + 1, mid, msg) == now[rs[k] := Receive(now[rs[k]], mid, msg)]
  {
    assert rs[..k + 1] == rs[..k] + [rs[k]] && rs[k] !in rs[..k];
    var now, next := Partly(lanes, rs, k, mid, msg), Partly(lanes, rs, k + 1, mid, msg);
    forall r | r in lanes
      ensures next[r] == now[rs[k] := Receive(now[rs[k]], mid, msg)][r]
    {
      assert r in rs[..k + 1] <==> r in rs[..k] || r == rs[k];
    }
  }

  // ---------------------------------------------------------------- what it means

  function Copies(inbox: seq<(nat, Msg)>, mid: nat): nat {
    if inbox == [] then 0 else Copies(inbox[..|inbox| - 1], mid) + if inbox[|inbox| - 1].0 == mid then 1 else 0
  }

  /**
   A fresh id arrives exactly once at each open receiver of the message, with the message, and nowhere else.  A
   closed one gets nothing but keeps the slot; every receiver of the message has its flush flag up.
   */
  lemma ExactlyOneCopy(lanes: Lanes, rs: seq<nat>, mid: nat, msg: Msg, r: nat)
    requires r in lanes && Copies(lanes[r].inbox, mid) == 0
    ensures r in Delivered(lanes, rs, mid, msg)
    ensures var l := Delivered(lanes, rs, mid, msg)[r];
      && Copies(l.inbox, mid) == (if r in rs && lanes[r].open then 1 else 0)
      && l.inbox == lanes[r].inbox + (if r in rs && lanes[r].open then [(mid, msg)] else [])
      && l.processing == lanes[r].processing + (if r in rs then 1 else 0)
      && (l.needFlush <==> lanes[r].needFlush || r in rs)
      && l.limit == lanes[r].limit && l.open == lanes[r].open
  {
    var inbox := lanes[r].inbox;
    assert (inbox + [(mid, msg)])[..|inbox + [(mid, msg)]| - 1] == inbox;
    assert inbox + [] == inbox;
  }
}
