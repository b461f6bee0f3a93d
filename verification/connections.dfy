/** The two indexes of live sockets, one by user and one by device; they are the same class twice
    over, so one class stands for both. An owner is a user id or a device id. */
module Connections {
  import opened Wrappers

  /** Ids are only ever compared, so numbers stand for the texts; 0 stands for the empty one. */
  type Id = nat
  const NO_ID: Id := 0

  /** A socket, with the loop that can refuse to run anything more for it. */
  datatype Conn = Conn(uid: Id, closed: bool)

  function ListOf(lists: map<Id, seq<Id>>, owner: Id): seq<Id> {
    if owner in lists then lists[owner] else []
  }

  /** A list without the first occurrence of one uid. */
  function Without(uids: seq<Id>, uid: Id): (r: seq<Id>)
    ensures uid !in uids ==> r == uids
    ensures uid in uids ==> |r| == |uids| - 1
    ensures multiset(r) == multiset(uids) - multiset{uid}
  {
    if uids == [] then []
    else if uids[0] == uid then
      assert uids == [uid] + uids[1..];
      uids[1..]
    else
      assert uids == [uids[0]] + uids[1..];
      [uids[0]] + Without(uids[1..], uid)
  }

  predicate Once(uids: seq<Id>) {
    forall uid | uid in uids :: multiset(uids)[uid] == 1
  }

  lemma WithoutKeepsOnce(uids: seq<Id>, uid: Id)
    requires Once(uids)
    ensures Once(Without(uids, uid))
    ensures forall u {:trigger u in Without(uids, uid)} :: u in Without(uids, uid) <==> u in uids && u != uid
  {
    var left := Without(uids, uid);
    forall u ensures multiset(left)[u] == if u == uid then 0 else multiset(uids)[u] {
      assert u in uids <==> u in multiset(uids);
    }
    assert forall u :: u in left <==> u in multiset(left);
  }

  function AfterDrop(uids: seq<Id>, owner: Id, uid: Id, keep: Option<Id>): seq<Id> {
    if keep == Some(owner) then uids else Without(uids, uid)
  }

  /** Every owner's list after a uid is dropped from all of them but the kept one and those still
      to do. */
  ghost predicate DroppedBut(was: map<Id, seq<Id>>, now: map<Id, seq<Id>>, uid: Id, keep: Option<Id>, todo: set<Id>) {
    forall owner: Id {:trigger ListOf(now, owner)} ::
      ListOf(now, owner) == if owner in todo then ListOf(was, owner)
                            else AfterDrop(ListOf(was, owner), owner, uid, keep)
  }

  ghost predicate Dropped(was: map<Id, seq<Id>>, now: map<Id, seq<Id>>, uid: Id, keep: Option<Id>) {
    DroppedBut(was, now, uid, keep, {})
  }

  ghost predicate NoneEmpty(lists: map<Id, seq<Id>>) {
    forall owner | owner in lists :: lists[owner] != []
  }

  /** The lists say what a simple map from socket to owner says, each socket once. */
  ghost predicate Agrees(lists: map<Id, seq<Id>>, ownerOf: map<Id, Id>) {
    forall owner: Id {:trigger ListOf(lists, owner)} :: ListAgrees(ListOf(lists, owner), owner, ownerOf)
  }

  ghost predicate ListAgrees(uids: seq<Id>, owner: Id, ownerOf: map<Id, Id>) {
    Once(uids) && forall uid: Id :: uid in uids <==> uid in ownerOf && ownerOf[uid] == owner
  }

  function DropOne(lists: map<Id, seq<Id>>, owner: Id, uid: Id): map<Id, seq<Id>>
    requires owner in lists
  {
    var rest := Without(lists[owner], uid);
    if rest == [] then lists - {owner} else lists[owner := rest]
  }

  /** One step of a drop: nothing if the list is the kept one or does not have the uid. */
  function DropListed(lists: map<Id, seq<Id>>, owner: Id, uid: Id, keep: Option<Id>): map<Id, seq<Id>>
    requires owner in lists
  {
    if keep != Some(owner) && uid in lists[owner] then DropOne(lists, owner, uid) else lists
  }

  lemma DropListedAt(lists: map<Id, seq<Id>>, owner: Id, uid: Id, keep: Option<Id>, other: Id)
    requires owner in lists
    ensures ListOf(DropListed(lists, owner, uid, keep), other)
            == if other == owner then AfterDrop(lists[owner], owner, uid, keep) else ListOf(lists, other)
  {
  }

  lemma DropListedLeavesNoneEmpty(lists: map<Id, seq<Id>>, owner: Id, uid: Id, keep: Option<Id>)
    requires owner in lists && NoneEmpty(lists)
    ensures var now := DropListed(lists, owner, uid, keep); NoneEmpty(now) && lists.Keys - {owner} <= now.Keys
  {
  }

  lemma OneListDropped(was: map<Id, seq<Id>>, before: map<Id, seq<Id>>, owner: Id, uid: Id, keep: Option<Id>,
                       todo: set<Id>)
    requires DroppedBut(was, before, uid, keep, todo + {owner}) && owner in before && owner !in todo
             && todo <= before.Keys
    requires NoneEmpty(before)
    ensures var now := DropListed(before, owner, uid, keep);
            DroppedBut(was, now, uid, keep, todo) && todo <= now.Keys && NoneEmpty(now)
  {
    var now := DropListed(before, owner, uid, keep);
    DropListedLeavesNoneEmpty(before, owner, uid, keep);
    assert ListOf(before, owner) == ListOf(was, owner);
    forall other: Id
      ensures ListOf(now, other) == if other in todo then ListOf(was, other)
                                    else AfterDrop(ListOf(was, other), other, uid, keep)
    {
      DropListedAt(before, owner, uid, keep, other);
      assert other != owner ==> (other in todo <==> other in todo + {owner});
    }
  }

  /** The simple map after the same drop. */
  function OwnersAfterDrop(ownerOf: map<Id, Id>, uid: Id, keep: Option<Id>): map<Id, Id> {
    if uid in ownerOf && keep == Some(ownerOf[uid]) then ownerOf else ownerOf - {uid}
  }

  lemma DropAgrees(was: map<Id, seq<Id>>, now: map<Id, seq<Id>>, ownerOf: map<Id, Id>,
                   uid: Id, keep: Option<Id>)
    requires Agrees(was, ownerOf) && Dropped(was, now, uid, keep)
    ensures Agrees(now, OwnersAfterDrop(ownerOf, uid, keep))
  {
    forall owner: Id ensures ListAgrees(ListOf(now, owner), owner, OwnersAfterDrop(ownerOf, uid, keep)) {
      assert ListAgrees(ListOf(was, owner), owner, ownerOf);
      if keep != Some(owner) {
        WithoutKeepsOnce(ListOf(was, owner), uid);
      }
    }
  }

  lemma ListKept(uids: seq<Id>, other: Id, ownerOf: map<Id, Id>, uid: Id, owner: Id)
    requires ListAgrees(uids, other, ownerOf)
    requires uid in ownerOf ==> ownerOf[uid] == owner
    requires other == owner ==> uid in uids
    ensures ListAgrees(uids, other, ownerOf[uid := owner])
  {
  }

  function AfterAssign(lists: map<Id, seq<Id>>, uid: Id, owner: Id): map<Id, seq<Id>> {
    if uid in ListOf(lists, owner) then lists else lists[owner := ListOf(lists, owner) + [uid]]
  }

  lemma AssignAgrees(was: map<Id, seq<Id>>, ownerOf: map<Id, Id>, uid: Id, owner: Id)
    requires Agrees(was, ownerOf) && (uid in ownerOf ==> ownerOf[uid] == owner)
    ensures Agrees(AfterAssign(was, uid, owner), ownerOf[uid := owner])
  {
    var now := AfterAssign(was, uid, owner);
    forall other: Id ensures ListAgrees(ListOf(now, other), other, ownerOf[uid := owner]) {
      assert ListAgrees(ListOf(was, other), other, ownerOf);
      if other == owner && uid !in ListOf(was, owner) {
      } else {
        ListKept(ListOf(was, other), other, ownerOf, uid, owner);
      }
    }
  }

  ghost predicate Assigned(was: map<Id, seq<Id>>, now: map<Id, seq<Id>>, uid: Id, owner: Id) {
    && ListOf(now, owner) == ListOf(was, owner) + (if uid in ListOf(was, owner) then [] else [uid])
    && forall other: Id {:trigger ListOf(now, other)} | other != owner ::
         ListOf(now, other) == Without(ListOf(was, other), uid)
  }

  lemma OwnerAfterBoth(ownerOf: map<Id, Id>, uid: Id, owner: Id)
    ensures OwnersAfterDrop(ownerOf, uid, Some(owner))[uid := owner] == ownerOf[uid := owner]
  {
  }

  lemma OtherListsAfterAssign(lists: map<Id, seq<Id>>, uid: Id, owner: Id, other: Id)
    requires other != owner
    ensures ListOf(AfterAssign(lists, uid, owner), other) == ListOf(lists, other)
  {
  }

  lemma DropThenAssign(was: map<Id, seq<Id>>, dropped: map<Id, seq<Id>>, uid: Id, owner: Id)
    requires Dropped(was, dropped, uid, Some(owner))
    ensures Assigned(was, AfterAssign(dropped, uid, owner), uid, owner)
  {
    var now := AfterAssign(dropped, uid, owner);
    assert ListOf(dropped, owner) == ListOf(was, owner);
    forall other: Id | other != owner ensures ListOf(now, other) == Without(ListOf(was, other), uid) {
      OtherListsAfterAssign(dropped, uid, owner, other);
      assert ListOf(dropped, other) == AfterDrop(ListOf(was, other), other, uid, Some(owner));
    }
  }

  /** The sockets of one list that are connected. */
  function Connected(uids: seq<Id>, connections: map<Id, Conn>): seq<Conn> {
    if uids == [] then []
    else
      var last := uids[|uids| - 1];
      Connected(uids[..|uids| - 1], connections) + if last in connections then [connections[last]] else []
  }

  lemma {:induction false} ConnectedOnceEach(uids: seq<Id>, connections: map<Id, Conn>)
    requires Once(uids) && forall uid | uid in connections :: connections[uid].uid == uid
    ensures var conns := Connected(uids, connections);
            && (forall i, j | 0 <= i < j < |conns| :: conns[i].uid != conns[j].uid)
            && (forall c :: c in conns <==> c.uid in uids && c.uid in connections && connections[c.uid] == c)
  {
    if uids != [] {
      var rest, last := uids[..|uids| - 1], uids[|uids| - 1];
      assert uids == rest + [last];
      assert multiset(uids) == multiset(rest) + multiset{last};
      assert last !in rest by {
        assert last in uids && multiset(uids)[last] == multiset(rest)[last] + 1;
        assert last in rest ==> last in multiset(rest);
      }
      forall uid | uid in rest ensures multiset(rest)[uid] == 1 {
        assert uid in uids && uid in multiset(rest);
      }
      ConnectedOnceEach(rest, connections);
    }
  }

  /** They come in the order of the list: from rising places in it, all those whose socket is there. */
  lemma {:induction false} ConnectedInOrder(uids: seq<Id>, connections: map<Id, Conn>) returns (at: seq<nat>)
    ensures var conns := Connected(uids, connections);
            |at| == |conns| && forall i | 0 <= i < |at| ::
              at[i] < |uids| && uids[at[i]] in connections && conns[i] == connections[uids[at[i]]]
    ensures forall i, j | 0 <= i < j < |at| :: at[i] < at[j]
    ensures forall k: nat | k < |uids| && uids[k] in connections :: k in at
  {
    at := [];
    if uids != [] {
      var n := |uids| - 1;
      at := ConnectedInOrder(uids[..n], connections);
      if uids[n] in connections {
        ghost var rest := at;
        at := at + [n];
        forall k: nat | k < |uids| && uids[k] in connections
          ensures k in at
        {
          assert k < n ==> k in rest && uids[..n][k] == uids[k];
        }
      } else {
        assert forall k: nat | k < n :: uids[..n][k] == uids[k];
      }
    }
  }

  predicate Reached(c: Conn, source: Id) {
    c.uid != source && !c.closed
  }

  predicate Refused(c: Conn, source: Id) {
    c.uid != source && c.closed
  }

  /** The deliveries a fan-out over these sockets schedules, in order. */
  function Deliveries(conns: seq<Conn>, source: Id): seq<Conn> {
    if conns == [] then []
    else
      var last := conns[|conns| - 1];
      Deliveries(conns[..|conns| - 1], source) + if Reached(last, source) then [last] else []
  }

  /** In order: from rising places among them, all the live ones but the source. */
  lemma {:induction false} DeliveriesInOrder(conns: seq<Conn>, source: Id) returns (at: seq<nat>)
    ensures var sent := Deliveries(conns, source);
            |at| == |sent| && forall i | 0 <= i < |at| :: at[i] < |conns| && sent[i] == conns[at[i]]
    ensures forall i, j | 0 <= i < j < |at| :: at[i] < at[j]
    ensures forall k: nat | k < |conns| :: k in at <==> conns[k].uid != source && !conns[k].closed
  {
    at := [];
    if conns != [] {
      var n := |conns| - 1;
      at := DeliveriesInOrder(conns[..n], source);
      var rest := at;
      if Reached(conns[n], source) {
        at := at + [n];
      }
      forall k: nat | k < |conns|
        ensures k in at <==> conns[k].uid != source && !conns[k].closed
      {
        assert k < n ==> (k in rest <==> conns[..n][k].uid != source && !conns[..n][k].closed);
        assert n !in rest;
      }
    }
  }

  function RefusedUids(conns: seq<Conn>, source: Id): set<Id> {
    if conns == [] then {}
    else
      var last := conns[|conns| - 1];
      RefusedUids(conns[..|conns| - 1], source) + if Refused(last, source) then {last.uid} else {}
  }

  lemma {:induction false} RefusedUidsAre(conns: seq<Conn>, source: Id, uid: Id)
    ensures uid in RefusedUids(conns, source) <==> exists c :: c in conns && c.uid == uid && Refused(c, source)
  {
    if conns != [] {
      RefusedUidsAre(conns[..|conns| - 1], source, uid);
      assert conns == conns[..|conns| - 1] + [conns[|conns| - 1]];
    }
  }

  /** Every live socket but the source is reached, exactly once, and no other is. */
  lemma {:induction false} DeliveredExactlyOnce(conns: seq<Conn>, source: Id)
    ensures forall c {:trigger multiset(Deliveries(conns, source))[c]} ::
              multiset(Deliveries(conns, source))[c] == if Reached(c, source) then multiset(conns)[c] else 0
  {
    if conns != [] {
      DeliveredExactlyOnce(conns[..|conns| - 1], source);
      assert conns == conns[..|conns| - 1] + [conns[|conns| - 1]];
    }
  }

  class Index {
    var connections: map<Id, Conn>
    var lists: map<Id, seq<Id>>
    /** The simple map the lists must agree with. */
    ghost var ownerOf: map<Id, Id>

    /** A socket is in at most one owner's list, once; no list is empty. */
    ghost predicate Valid()
      reads this
    {
      && (forall uid | uid in connections :: uid != NO_ID && connections[uid].uid == uid)
      && NoneEmpty(lists)
      && Agrees(lists, ownerOf)
    }

    constructor ()
      ensures Valid() && connections == map[] && lists == map[] && ownerOf == map[]
    {
      connections, lists, ownerOf := map[], map[], map[];
    }

    method AddConnection(conn: Conn)
      requires Valid() && conn.uid != NO_ID
      modifies this`connections
      ensures Valid() && connections == old(connections)[conn.uid := conn]
    {
      connections := connections[conn.uid := conn];
    }

    method RemoveConnection(conn: Conn)
      requires Valid() && conn.uid != NO_ID
      modifies this
      ensures Valid()
      ensures connections == old(connections) - {conn.uid} && ownerOf == old(ownerOf) - {conn.uid}
      ensures Dropped(old(lists), lists, conn.uid, None)
    {
      if conn.uid in connections {
        connections := connections - {conn.uid};
      }
      Unassign(conn.uid, None);
    }

    /** Drops the socket from every list but the kept owner's, and a list that empties with it. */
    method Unassign(uid: Id, keep: Option<Id>)
      requires Valid()
      modifies this`lists, this`ownerOf
      ensures Valid()
      ensures Dropped(old(lists), lists, uid, keep)
      ensures ownerOf == OwnersAfterDrop(old(ownerOf), uid, keep)
    {
      ghost var was := lists;
      var todo := lists.Keys;
      while todo != {}
        invariant todo <= lists.Keys && NoneEmpty(lists) && ownerOf == old(ownerOf)
        invariant DroppedBut(was, lists, uid, keep, todo)
        decreases |todo|
      {
        var owner :| owner in todo;
        assert todo == todo - {owner} + {owner};
        todo := todo - {owner};
        ghost var before := lists;
        if keep != Some(owner) && uid in lists[owner] {
          lists := DropOne(lists, owner, uid);
        }
        OneListDropped(was, before, owner, uid, keep, todo);
      }
      DropAgrees(was, lists, ownerOf, uid, keep);
      ownerOf := OwnersAfterDrop(ownerOf, uid, keep);
    }

    /** The socket becomes this owner's and nobody else's; at the end of the list if it is new there. */
    method Assign(uid: Id, owner: Id)
      requires Valid()
      modifies this`lists, this`ownerOf
      ensures Valid() && ownerOf == old(ownerOf)[uid := owner]
      ensures Assigned(old(lists), lists, uid, owner)
    {
      Unassign(uid, Some(owner));
      AssignAgrees(lists, ownerOf, uid, owner);
      DropThenAssign(old(lists), lists, uid, owner);
      OwnerAfterBoth(old(ownerOf), uid, owner);
      ghost var after := AfterAssign(lists, uid, owner);
      if owner !in lists {
        lists := lists[owner := []];
      }
      if uid !in lists[owner] {
        lists := lists[owner := lists[owner] + [uid]];
      }
      assert lists == after;
      ownerOf := ownerOf[uid := owner];
    }

    method RemoveOwner(owner: Id)
      requires Valid()
      modifies this`lists, this`ownerOf
      ensures Valid()
      ensures lists == old(lists) - {owner}
      ensures ownerOf == map uid | uid in old(ownerOf) && old(ownerOf)[uid] != owner :: old(ownerOf)[uid]
    {
      ghost var was, wasOwner := lists, ownerOf;
      if owner in lists {
        lists := lists - {owner};
      }
      ownerOf := map uid | uid in ownerOf && ownerOf[uid] != owner :: ownerOf[uid];
      forall other: Id ensures ListAgrees(ListOf(lists, other), other, ownerOf) {
        assert ListAgrees(ListOf(was, other), other, wasOwner);
      }
    }

    method Reset()
      modifies this
      ensures Valid() && connections == map[] && lists == map[] && ownerOf == map[]
    {
      connections, lists, ownerOf := map[], map[], map[];
    }

    /** Exactly the connected sockets the simple map gives to this owner, each once, in the order they
        were assigned. */
    method Get(owner: Id) returns (conns: seq<Conn>)
      requires Valid()
      ensures conns == Connected(ListOf(lists, owner), connections)
      ensures forall i, j | 0 <= i < j < |conns| :: conns[i].uid != conns[j].uid
      ensures forall c :: c in conns <==>
                c.uid in connections && connections[c.uid] == c && c.uid in ownerOf && ownerOf[c.uid] == owner
    {
      conns := [];
      assert ListAgrees(ListOf(lists, owner), owner, ownerOf);
      ConnectedOnceEach(ListOf(lists, owner), connections);
      if owner !in lists {
        return;
      }
      var i := 0;
      while i < |lists[owner]|
        invariant 0 <= i <= |lists[owner]| && conns == Connected(lists[owner][..i], connections)
      {
        assert lists[owner][..i + 1][..i] == lists[owner][..i];
        var uid := lists[owner][i];
        if uid in connections {
          conns := conns + [connections[uid]];
        }
        i := i + 1;
      }
      assert lists[owner][..i] == lists[owner];
    }

    /** Schedules the message on every live socket in turn but the source, and removes the sockets
        that refuse it. */
    method FanOut(conns: seq<Conn>, source: Id) returns (sent: seq<Conn>)
      requires Valid() && forall c | c in conns :: c.uid != NO_ID
      modifies this
      ensures Valid() && sent == Deliveries(conns, source)
      ensures connections == old(connections) - RefusedUids(conns, source)
      ensures ownerOf == old(ownerOf) - RefusedUids(conns, source)
    {
      sent := [];
      var i := 0;
      while i < |conns|
        invariant 0 <= i <= |conns| && Valid() && sent == Deliveries(conns[..i], source)
        invariant connections == old(connections) - RefusedUids(conns[..i], source)
        invariant ownerOf == old(ownerOf) - RefusedUids(conns[..i], source)
      {
        assert conns[..i + 1][..i] == conns[..i];
        ghost var refused := RefusedUids(conns[..i], source);
        assert old(connections) - refused - {conns[i].uid} == old(connections) - (refused + {conns[i].uid});
        assert old(ownerOf) - refused - {conns[i].uid} == old(ownerOf) - (refused + {conns[i].uid});
        if conns[i].uid != source {
          if conns[i].closed {
            RemoveConnection(conns[i]);
          } else {
            sent := sent + [conns[i]];
          }
        }
        i := i + 1;
      }
      assert conns[..i] == conns;
    }

    /** A message to one owner reaches every live connected socket of that owner but the source,
        exactly once and no other socket; the closed ones among them are gone afterwards, from both
        maps, and nothing else is. */
    method SendMessage(owner: Id, source: Id) returns (sent: seq<Conn>)
      requires Valid()
      modifies this
      ensures Valid()
      ensures forall i, j | 0 <= i < j < |sent| :: sent[i].uid != sent[j].uid
      ensures forall c :: c in sent <==>
                && c.uid in old(connections) && old(connections)[c.uid] == c
                && c.uid in old(ownerOf) && old(ownerOf)[c.uid] == owner
                && c.uid != source && !c.closed
      ensures forall uid: Id :: uid in connections <==>
                uid in old(connections)
                  && !(uid in old(ownerOf) && old(ownerOf)[uid] == owner && uid != source
                       && old(connections)[uid].closed)
      ensures forall uid: Id | uid in connections :: connections[uid] == old(connections)[uid]
      ensures ownerOf == old(ownerOf) - (old(connections).Keys - connections.Keys)
    {
      var conns := Get(owner);
      if conns == [] {
        sent := [];
        return;
      }
      sent := FanOut(conns, source);
      DeliveriesOnceEach(conns, source);
      ghost var gone := RefusedUids(conns, source);
      forall uid: Id ensures uid in gone <==>
        uid in old(connections) && uid in old(ownerOf) && old(ownerOf)[uid] == owner && uid != source
          && old(connections)[uid].closed
      {
        RefusedUidsAre(conns, source, uid);
        if uid in old(connections) && uid in old(ownerOf) && old(ownerOf)[uid] == owner {
          assert old(connections)[uid] in conns;
        }
      }
      assert old(connections).Keys - connections.Keys == gone;
    }

    /** A snapshot of the connected sockets, each once, in some order. */
    method Items() returns (conns: seq<Conn>)
      requires Valid()
      ensures forall i, j | 0 <= i < j < |conns| :: conns[i].uid != conns[j].uid
      ensures forall c :: c in conns <==> c.uid in connections && connections[c.uid] == c
    {
      conns := [];
      var todo := connections.Keys;
      while todo != {}
        invariant todo <= connections.Keys
        invariant forall i, j | 0 <= i < j < |conns| :: conns[i].uid != conns[j].uid
        invariant forall c :: c in conns <==> c.uid in connections && connections[c.uid] == c && c.uid !in todo
        decreases |todo|
      {
        var uid :| uid in todo;
        assert forall i | 0 <= i < |conns| :: conns[i] in conns;
        conns := conns + [connections[uid]];
        todo := todo - {uid};
      }
    }

    /** A message to all reaches every live connected socket but the source exactly once, and the
        closed ones are gone afterwards. */
    method SendMessageToAll(source: Id) returns (sent: seq<Conn>)
      requires Valid()
      modifies this
      ensures Valid()
      ensures forall i, j | 0 <= i < j < |sent| :: sent[i].uid != sent[j].uid
      ensures forall c :: c in sent <==>
                c.uid in old(connections) && old(connections)[c.uid] == c && c.uid != source && !c.closed
      ensures forall uid: Id :: uid in connections <==>
                uid in old(connections) && (uid == source || !old(connections)[uid].closed)
      ensures forall uid: Id | uid in connections :: connections[uid] == old(connections)[uid]
      ensures ownerOf == old(ownerOf) - (old(connections).Keys - connections.Keys)
    {
      var conns := Items();
      sent := FanOut(conns, source);
      DeliveriesOnceEach(conns, source);
      ghost var gone := RefusedUids(conns, source);
      forall uid: Id ensures uid in gone <==> uid in old(connections) && uid != source && old(connections)[uid].closed {
        RefusedUidsAre(conns, source, uid);
        if uid in old(connections) {
          assert old(connections)[uid] in conns;
        }
      }
      assert old(connections).Keys - connections.Keys == gone;
    }
  }

  lemma {:induction false} DeliveriesOnceEach(conns: seq<Conn>, source: Id)
    requires forall i, j | 0 <= i < j < |conns| :: conns[i].uid != conns[j].uid
    ensures var sent := Deliveries(conns, source);
            && (forall i, j | 0 <= i < j < |sent| :: sent[i].uid != sent[j].uid)
            && (forall c :: c in sent <==> c in conns && Reached(c, source))
  {
    if conns != [] {
      var rest, last := conns[..|conns| - 1], conns[|conns| - 1];
      DeliveriesOnceEach(rest, source);
      assert conns == rest + [last];
      assert forall c :: c in rest ==> c.uid != last.uid;
      var sent := Deliveries(rest, source);
      assert forall i | 0 <= i < |sent| :: sent[i] in rest;
    }
  }
}
