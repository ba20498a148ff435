/**
 The routing index of the bus.

 A bus looks receivers up in an index from query shapes to receivers, built once from the types each
 receiver lists.  The index is compared with a plain scan that asks every receiver whether it accepts.
 */
module Routing {

  import opened Wrappers

  type Tag = string

  /** One accepted type: a message tag and, for requests, the tags of response and error. */
  datatype Accepts = Accepts(msg: Tag, resp: Option<(Tag, Tag)>)

  type Table = map<Tag, seq<Option<(Tag, Tag)>>>

  // ---------------------------------------------------------------- the message table of a relay

  function Add(table: Table, a: Accepts): Table {
    table[a.msg := (if a.msg in table then table[a.msg] else []) + [a.resp]]
  }

  function TableOf(list: seq<Accepts>): Table {
    if list == [] then map[] else Add(TableOf(list[..|list| - 1]), list[|list| - 1])
  }

  class MessageTable {
    var table: Table

    constructor ()
      ensures table == map[]
    {
      table := map[];
    }

    method AddAny(req: Tag, respErr: Option<(Tag, Tag)>)
      modifies this
      ensures table == Add(old(table), Accepts(req, respErr))
    {
      if req !in table {
        table := table[req := []];
      }
      table := table[req := table[req] + [respErr]];
    }

    constructor From(list: seq<Accepts>)
      ensures table == TableOf(list)
    {
      table := map[];
      new;
      var i := 0;
      while i < |list|
        invariant 0 <= i <= |list|
        invariant table == TableOf(list[..i])
      {
        AddAny(list[i].msg, list[i].resp);
        assert list[..i + 1][..i] == list[..i];
        i := i + 1;
      }
      assert list[..i] == list;
    }
  }

  predicate Same(wanted: Option<Tag>, tag: Tag) {
    wanted.Some? ==> wanted.value == tag
  }

  predicate AcceptMessage(table: Table, msg: Tag) {
    msg in table && exists i :: 0 <= i < |table[msg]| && table[msg][i].None?
  }

  predicate AcceptRequest(table: Table, msg: Tag, resp: Option<Tag>, err: Option<Tag>) {
    msg in table &&
    exists i :: 0 <= i < |table[msg]| && table[msg][i].Some?
             && Same(resp, table[msg][i].value.0) && Same(err, table[msg][i].value.1)
  }

  /** The table holds exactly the listed types. */
  lemma {:induction false} TableHolds(list: seq<Accepts>, a: Accepts)
    ensures a in list <==> a.msg in TableOf(list) && a.resp in TableOf(list)[a.msg]
  {
    if list != [] {
      var n := |list| - 1;
      TableHolds(list[..n], a);
      assert list == list[..n] + [list[n]];
    }
  }

  /** A relay accepts a message, or a request with the given response and error, exactly if it is listed. */
  lemma TableAccepts(list: seq<Accepts>, msg: Tag, resp: Option<Tag>, err: Option<Tag>)
    ensures AcceptMessage(TableOf(list), msg) <==> Accepts(msg, None) in list
    ensures AcceptRequest(TableOf(list), msg, resp, err) <==>
      exists r, e :: Accepts(msg, Some((r, e))) in list
                     && (resp.None? || resp.value == r) && (err.None? || err.value == e)
  {
    var table := TableOf(list);
    TableHolds(list, Accepts(msg, None));
    if AcceptRequest(table, msg, resp, err) {
      var i :| 0 <= i < |table[msg]| && table[msg][i].Some? && Same(resp, table[msg][i].value.0)
          && Same(err, table[msg][i].value.1);
      TableHolds(list, Accepts(msg, table[msg][i]));
      assert Accepts(msg, Some((table[msg][i].value.0, table[msg][i].value.1))) in list;
    }
    if r, e :| Accepts(msg, Some((r, e))) in list && Same(resp, r) && Same(err, e) {
      TableHolds(list, Accepts(msg, Some((r, e))));
    }
  }

  // ---------------------------------------------------------------- receivers

  datatype Receiver =
    | Local(msg: Tag, resp: Tag, err: Tag)
    | Relay(table: Table)

  /** `iter_types`, as a set: the order of a hash map is not significant. */
  function Types(r: Receiver): set<Accepts> {
    match r
    case Local(msg, resp, err) => {Accepts(msg, Some((resp, err)))}
    case Relay(table) => set k, x | k in table && x in table[k] :: Accepts(k, x)
  }

  predicate AcceptMsg(r: Receiver, msg: Tag) {
    match r
    case Local(m, _, _) => msg == m
    case Relay(table) => AcceptMessage(table, msg)
  }

  predicate AcceptReq(r: Receiver, req: Tag, resp: Option<Tag>, err: Option<Tag>) {
    match r
    case Local(m, x, e) => Same(resp, x) && Same(err, e) && req == m
    case Relay(table) => AcceptRequest(table, req, resp, err)
  }

  predicate Accept(r: Receiver, isReq: bool, msg: Tag, resp: Option<Tag>, err: Option<Tag>) {
    if isReq then AcceptReq(r, msg, resp, err) else AcceptMsg(r, msg)
  }

  // ---------------------------------------------------------------- building the index

  datatype Query = Query(msg: Tag, resp: Option<Tag>, err: Option<Tag>)

  /** The query shapes one accepted type is filed under. */
  function Shapes(a: Accepts): set<Query> {
    {Query(a.msg, None, None)} +
    match a.resp
    case None => {}
    case Some((r, e)) => {Query(a.msg, Some(r), None), Query(a.msg, None, Some(e)), Query(a.msg, Some(r), Some(e))}
  }

  type Lookup = map<Query, set<nat>>

  function Filed(lookup: Lookup, q: Query): set<nat> {
    if q in lookup then lookup[q] else {}
  }

  /** One of the receiver's types has this shape. */
  ghost predicate Fits(r: Receiver, q: Query) {
    exists a :: a in Types(r) && q in Shapes(a)
  }

  /** A receiver is filed under a query exactly if one of its types has that shape. */
  ghost predicate Files(receivers: map<nat, Receiver>, lookup: Lookup) {
    forall q, id :: id in Filed(lookup, q) <==> id in receivers && Fits(receivers[id], q)
  }

  method Insert(lookup: Lookup, q: Query, id: nat) returns (r: Lookup)
    ensures forall p :: Filed(r, p) == if p == q then Filed(lookup, p) + {id} else Filed(lookup, p)
  {
    r := lookup;
    if q !in r {
      r := r[q := {}];
    }
    r := r[q := r[q] + {id}];
  }

  /** The body of the inner loop: file one type of one receiver under its shapes. */
  method FileType(lookup: Lookup, a: Accepts, id: nat) returns (r: Lookup)
    ensures forall p :: Filed(r, p) == if p in Shapes(a) then Filed(lookup, p) + {id} else Filed(lookup, p)
  {
    r := Insert(lookup, Query(a.msg, None, None), id);
    match a.resp {
      case None =>
      case Some((resp, err)) =>
        r := Insert(r, Query(a.msg, Some(resp), None), id);
        r := Insert(r, Query(a.msg, None, Some(err)), id);
        r := Insert(r, Query(a.msg, Some(resp), Some(err)), id);
    }
  }

  method FileReceiver(lookup: Lookup, types: set<Accepts>, id: nat) returns (r: Lookup)
    ensures forall p, x :: x in Filed(r, p)
              <==> x in Filed(lookup, p) || (x == id && exists a :: a in types && p in Shapes(a))
  {
    r := lookup;
    var rest := types;
    while rest != {}
      invariant rest <= types
      invariant forall p, x :: x in Filed(r, p) <==>
        x in Filed(lookup, p) || (x == id && exists a :: a in types - rest && p in Shapes(a))
      decreases |rest|
    {
      var a :| a in rest;
      r := FileType(r, a, id);
      rest := rest - {a};
      assert forall b :: b in types - rest <==> b == a || b in types - (rest + {a});
    }
    assert types - {} == types;
  }

  method BuildLookup(receivers: map<nat, Receiver>) returns (lookup: Lookup)
    ensures Files(receivers, lookup)
  {
    lookup := map[];
    var rest := receivers.Keys;
    while rest != {}
      invariant rest <= receivers.Keys
      invariant forall q, id :: id in Filed(lookup, q) <==>
        id in receivers.Keys - rest && Fits(receivers[id], q)
      decreases |rest|
    {
      var id :| id in rest;
      var next := FileReceiver(lookup, Types(receivers[id]), id);
      forall q, x
        ensures x in Filed(next, q) <==> x in receivers.Keys - (rest - {id}) && Fits(receivers[x], q)
      {
        assert x in receivers.Keys - (rest - {id}) <==> x == id || x in receivers.Keys - rest;
        assert x in Filed(lookup, q) <==> x in receivers.Keys - rest && Fits(receivers[x], q);
        assert x in Filed(next, q) <==> x in Filed(lookup, q) || (x == id && Fits(receivers[id], q));
      }
      lookup, rest := next, rest - {id};
    }
    assert receivers.Keys - {} == receivers.Keys;
  }

  // ---------------------------------------------------------------- from sets to lists

  predicate NoRepeats(xs: seq<nat>) {
    forall i, j :: 0 <= i < j < |xs| ==> xs[i] != xs[j]
  }

  /** The index proper: each set laid out as a list, in any order. */
  ghost predicate Lists(lookup: Lookup, index: map<Query, seq<nat>>) {
    index.Keys == lookup.Keys
    && forall q :: q in index ==> NoRepeats(index[q]) && forall id :: id in index[q] <==> id in lookup[q]
  }

  method ToList(ids: set<nat>) returns (xs: seq<nat>)
    ensures NoRepeats(xs) && forall id :: id in xs <==> id in ids
  {
    xs := [];
    var rest := ids;
    while rest != {}
      invariant rest <= ids && NoRepeats(xs)
      invariant forall id :: id in xs <==> id in ids - rest
      decreases |rest|
    {
      var id :| id in rest;
      assert id !in xs;
      xs := xs + [id];
      rest := rest - {id};
    }
  }

  method ToLists(lookup: Lookup) returns (index: map<Query, seq<nat>>)
    ensures Lists(lookup, index)
  {
    index := map[];
    var rest := lookup.Keys;
    while rest != {}
      invariant rest <= lookup.Keys && index.Keys == lookup.Keys - rest
      invariant forall q :: q in index ==> NoRepeats(index[q]) && forall id :: id in index[q] <==> id in lookup[q]
      decreases |rest|
    {
      var q :| q in rest;
      var xs := ToList(lookup[q]);
      index := index[q := xs];
      rest := rest - {q};
    }
  }

  /** What the constructor of the bus establishes. */
  ghost predicate Indexes(receivers: map<nat, Receiver>, index: map<Query, seq<nat>>) {
    && (forall q :: q in index ==> NoRepeats(index[q]))
    && (forall q, id :: id in Listed(index, q) <==> id in receivers && Fits(receivers[id], q))
  }

  function Listed(index: map<Query, seq<nat>>, q: Query): seq<nat> {
    if q in index then index[q] else []
  }

  method BusNew(receivers: map<nat, Receiver>) returns (index: map<Query, seq<nat>>)
    ensures Indexes(receivers, index)
  {
    var lookup := BuildLookup(receivers);
    index := ToLists(lookup);
    assert forall q, id :: id in Listed(index, q) <==> id in Filed(lookup, q);
  }

  // ---------------------------------------------------------------- selecting

  datatype SendOptions = Broadcast | Except(id: nat) | Direct(id: nat) | Random | Balanced

  predicate Chosen(options: SendOptions, id: nat) {
    match options
    case Except(x) => x != id
    case Direct(x) => x == id
    case _ => true
  }

  function Keep(receivers: map<nat, Receiver>, ids: seq<nat>, options: SendOptions, q: Query, isReq: bool): seq<nat> {
    if ids == [] then []
    else
      var rest := Keep(receivers, ids[1..], options, q, isReq);
      if ids[0] in receivers && Accept(receivers[ids[0]], isReq, q.msg, q.resp, q.err) && Chosen(options, ids[0])
          then [ids[0]] + rest
      else rest
  }

  function Select(receivers: map<nat, Receiver>, index: map<Query, seq<nat>>, options: SendOptions, q: Query,
      isReq: bool): seq<nat> {
    Keep(receivers, Listed(index, q), options, q, isReq)
  }

  lemma {:induction false} KeepIs(receivers: map<nat, Receiver>, ids: seq<nat>, options: SendOptions, q: Query,
      isReq: bool)
    ensures forall id :: id in Keep(receivers, ids, options, q, isReq) <==>
      id in ids && id in receivers && Accept(receivers[id], isReq, q.msg, q.resp, q.err) && Chosen(options, id)
    ensures NoRepeats(ids) ==> NoRepeats(Keep(receivers, ids, options, q, isReq))
  {
    if ids != [] {
      KeepIs(receivers, ids[1..], options, q, isReq);
      assert ids == [ids[0]] + ids[1..];
    }
  }

  lemma ShapeOf(q: Query, r: Tag, e: Tag)
    requires Same(q.resp, r) && Same(q.err, e)
    ensures q in Shapes(Accepts(q.msg, Some((r, e))))
  {
    assert q.resp == None || q.resp == Some(r);
    assert q.err == None || q.err == Some(e);
    assert q == Query(q.msg, q.resp, q.err);
  }

  /** An accepted query is always one of the shapes of an accepted type. */
  lemma RequestShape(r: Receiver, q: Query)
    requires AcceptReq(r, q.msg, q.resp, q.err)
    ensures Fits(r, q)
  {
    match r {
      case Local(m, x, e) =>
        ShapeOf(q, x, e);
        assert Accepts(m, Some((x, e))) in Types(r);
      case Relay(table) =>
        var i :| 0 <= i < |table[q.msg]| && table[q.msg][i].Some?
              && Same(q.resp, table[q.msg][i].value.0) && Same(q.err, table[q.msg][i].value.1);
        var (x, e) := table[q.msg][i].value;
        ShapeOf(q, x, e);
        assert table[q.msg][i] == Some((x, e));
        assert Accepts(q.msg, Some((x, e))) in Types(r);
    }
  }

  lemma MessageShape(r: Receiver, msg: Tag)
    requires AcceptMsg(r, msg)
    ensures Fits(r, Query(msg, None, None))
  {
    match r {
      case Local(m, x, e) =>
        assert Accepts(m, Some((x, e))) in Types(r) && Query(msg, None, None) in Shapes(Accepts(m, Some((x, e))));
      case Relay(table) =>
        var i :| 0 <= i < |table[msg]| && table[msg][i].None?;
        assert Accepts(msg, table[msg][i]) in Types(r) && Query(msg, None, None) in Shapes(Accepts(msg, table[msg][i]));
    }
  }

  /** The scan: every receiver that accepts and is chosen. */
  ghost predicate Scanned(receivers: map<nat, Receiver>, options: SendOptions, q: Query, isReq: bool, id: nat) {
    id in receivers && Accept(receivers[id], isReq, q.msg, q.resp, q.err) && Chosen(options, id)
  }

  /** A plain message is looked up by its tag alone; only requests name a response or an error. */
  predicate UsedShape(q: Query, isReq: bool) {
    isReq || (q.resp.None? && q.err.None?)
  }

  ghost predicate Agrees(q: Query, isReq: bool) {
    forall receivers, index, options | Indexes(receivers, index) ::
      var picked := Select(receivers, index, options, q, isReq);
      NoRepeats(picked) && forall id :: id in picked <==> Scanned(receivers, options, q, isReq, id)
  }

  /** What it takes to be accepted: a local receiver has one type, and a relay's table may list any. */
  lemma AcceptsMean(r: Receiver, isReq: bool, q: Query)
    ensures Accept(r, isReq, q.msg, q.resp, q.err) <==>
      match r
      case Local(msg, resp, err) =>
        q.msg == msg && (isReq ==> (q.resp.None? || q.resp.value == resp) && (q.err.None? || q.err.value == err))
      case Relay(table) =>
        && q.msg in table
        && if isReq then exists x, e :: Some((x, e)) in table[q.msg]
                                        && (q.resp.None? || q.resp.value == x) && (q.err.None? || q.err.value == e)
           else None in table[q.msg]
  {
    if r.Relay? && isReq && q.msg in r.table {
      if x, e :| Some((x, e)) in r.table[q.msg]
                 && (q.resp.None? || q.resp.value == x) && (q.err.None? || q.err.value == e) {
        var i :| 0 <= i < |r.table[q.msg]| && r.table[q.msg][i] == Some((x, e));
        assert AcceptRequest(r.table, q.msg, q.resp, q.err);
      }
      if i :| 0 <= i < |r.table[q.msg]| && r.table[q.msg][i].Some?
              && Same(q.resp, r.table[q.msg][i].value.0) && Same(q.err, r.table[q.msg][i].value.1) {
        var (x, e) := r.table[q.msg][i].value;
        assert Some((x, e)) in r.table[q.msg];
      }
    }
  }

  /** The receivers that accept the query. */
  predicate Accepting(receivers: map<nat, Receiver>, q: Query, isReq: bool, id: nat) {
    id in receivers && Accept(receivers[id], isReq, q.msg, q.resp, q.err)
  }

  /** What the options select among the accepting receivers: all of them, all but one, or one at most. */
  lemma OptionsMean(receivers: map<nat, Receiver>, index: map<Query, seq<nat>>, options: SendOptions, q: Query,
      isReq: bool)
    requires Indexes(receivers, index) && UsedShape(q, isReq)
    ensures var picked := Select(receivers, index, options, q, isReq);
      && (forall i, j :: 0 <= i < j < |picked| ==> picked[i] != picked[j])
      && (options.Except? ==> forall id :: id in picked <==> Accepting(receivers, q, isReq, id) && id != options.id)
      && (options.Direct? ==> picked == if Accepting(receivers, q, isReq, options.id) then [options.id] else [])
      && (options.Broadcast? || options.Random? || options.Balanced? ==>
            forall id :: id in picked <==> Accepting(receivers, q, isReq, id))
  {
    SelectScans(receivers, index, options, q, isReq);
    var picked := Select(receivers, index, options, q, isReq);
    if options.Direct? {
      AtMostOne(picked, options.id);
    }
  }

  lemma AtMostOne(xs: seq<nat>, x: nat)
    requires NoRepeats(xs) && forall y :: y in xs ==> y == x
    ensures xs == if x in xs then [x] else []
  {
    if |xs| >= 2 {
      SamePair(xs, x);
      assert false;
    }
    assert xs == [] || xs[0] in xs;
  }

  lemma SamePair(xs: seq<nat>, x: nat)
    requires |xs| >= 2 && forall y :: y in xs ==> y == x
    ensures !NoRepeats(xs)
  {
    assert xs[0] in xs && xs[1] in xs;
  }

  lemma SelectScans(receivers: map<nat, Receiver>, index: map<Query, seq<nat>>, options: SendOptions, q: Query,
      isReq: bool)
    requires Indexes(receivers, index) && UsedShape(q, isReq)
    ensures NoRepeats(Select(receivers, index, options, q, isReq))
    ensures forall id :: id in Select(receivers, index, options, q, isReq)
              <==> Scanned(receivers, options, q, isReq, id)
  {
    KeepIs(receivers, Listed(index, q), options, q, isReq);
    forall id | Scanned(receivers, options, q, isReq, id)
      ensures id in Listed(index, q)
    {
      if isReq {
        RequestShape(receivers[id], q);
      } else {
        MessageShape(receivers[id], q.msg);
        assert q == Query(q.msg, None, None);
      }
    }
  }

  /** The index agrees with the scan for every set of receivers exactly on the shapes the bus uses. */
  lemma RoutingAgrees(q: Query, isReq: bool)
    ensures Agrees(q, isReq) <==> UsedShape(q, isReq)
  {
    if UsedShape(q, isReq) {
      forall receivers, index, options | Indexes(receivers, index)
        ensures var picked := Select(receivers, index, options, q, isReq);
          NoRepeats(picked) && forall id :: id in picked <==> Scanned(receivers, options, q, isReq, id)
      {
        SelectScans(receivers, index, options, q, isReq);
      }
    } else {
      UnusedShapeFails(q, isReq);
    }
  }

  /** A relay that takes the bare message is missed by a lookup that also names a response. */
  lemma UnusedShapeFails(q: Query, isReq: bool)
    requires !UsedShape(q, isReq)
    ensures !Agrees(q, isReq)
  {
    var relay := Relay(map[q.msg := [None]]);
    var receivers := map[0 := relay];
    var only := Query(q.msg, None, None);
    var index: map<Query, seq<nat>> := map[only := [0]];
    assert Types(relay) == {Accepts(q.msg, None)} by {
      assert relay.table[q.msg][0].None?;
    }
    assert forall p, id :: id in Listed(index, p) <==> p == only && id == 0;
    forall p: Query, id: nat
      ensures id in Listed(index, p) <==> id in receivers && Fits(receivers[id], p)
    {
      if p == only && id == 0 {
        assert Accepts(q.msg, None) in Types(receivers[id]) && p in Shapes(Accepts(q.msg, None));
      }
    }
    assert Indexes(receivers, index);
    assert relay.table[q.msg][0].None?;
    assert Scanned(receivers, Broadcast, q, isReq, 0);
    assert Select(receivers, index, Broadcast, q, isReq) == [];
  }

  /**
   `send` and `try_send` take the list for the bare tag unfiltered: it differs from the scan exactly by the
   relays that list the tag with a response only.
   */
  lemma DirectLookup(receivers: map<nat, Receiver>, index: map<Query, seq<nat>>, msg: Tag, id: nat)
    requires Indexes(receivers, index) && id in receivers
    ensures id in Listed(index, Query(msg, None, None)) <==>
      AcceptMsg(receivers[id], msg) || AcceptReq(receivers[id], msg, None, None)
  {
    var q, r := Query(msg, None, None), receivers[id];
    if AcceptMsg(r, msg) {
      MessageShape(r, msg);
    }
    if AcceptReq(r, msg, None, None) {
      RequestShape(r, q);
    }
    if id in Listed(index, q) {
      var a :| a in Types(r) && q in Shapes(a);
      assert a.msg == msg;
      if r.Relay? {
        var i :| 0 <= i < |r.table[msg]| && r.table[msg][i] == a.resp;
      }
    }
  }
}
