/** Delivery of one payload to one user: to the local connection when the
    user is registered here, else through the relay when the storage says
    the user is online elsewhere, else into the user's offline queue. The
    same decision serves one-to-one chat and each member of a group chat;
    the relay's inbound callback uses it without the relay step. */
module Routing {
  import opened Common
  import opened Users
  import opened Storage
  import opened Registry
  import opened ChatState

  datatype Path = Direct | Relayed | Stored

  /** The delivery priority: local connection, then relay, then storage. */
  function PathOf(w: World, to: int): Path
  {
    if to in w.conns then Direct
    else if QueryUser(w.db, to).state == ONLINE then Relayed
    else Stored
  }

  /** Routing one payload (`oneChat`, and the body of `groupChat`'s loop). */
  function Deliver(w: World, to: int, payload: string): (r: World)
    ensures r.conns == w.conns && r.db.users == w.db.users
    ensures r.db.(offline := w.db.offline) == w.db
    ensures |w.log| <= |r.log|
    // exactly one path: one effect, or one queued payload, never both
    ensures (|r.log| - |w.log|) + (|QueryOffline(r.db, to)| - |QueryOffline(w.db, to)|) == 1
    ensures forall x :: x != to ==> QueryOffline(r.db, x) == QueryOffline(w.db, x)
    ensures to in w.conns ==>
      NewEffects(w, r) == [Send(w.conns[to], Raw(payload))] && r.db == w.db
    ensures to !in w.conns && QueryUser(w.db, to).state == ONLINE ==>
      NewEffects(w, r) == [Publish(to, payload)] && r.db == w.db
    ensures to !in w.conns && QueryUser(w.db, to).state != ONLINE ==>
      r.log == w.log && QueryOffline(r.db, to) == QueryOffline(w.db, to) + [payload]
  {
    if to in w.conns then w.(log := w.log + [Send(w.conns[to], Raw(payload))])
    else if QueryUser(w.db, to).state == ONLINE then w.(log := w.log + [Publish(to, payload)])
    else w.(db := InsertOffline(w.db, to, payload))
  }

  /** `handlerRedisSubscribeMessage(userid, msg)`: a relayed message is sent
      locally when the user is registered here and is otherwise queued; it is
      never published again. */
  function RelayInbound(w: World, userid: int, msg: string): (r: World)
    ensures r.conns == w.conns && r.db.users == w.db.users
    ensures r.db.(offline := w.db.offline) == w.db
    ensures |w.log| <= |r.log|
    ensures forall e :: e in NewEffects(w, r) ==> !e.Publish?
    ensures userid in w.conns ==>
      NewEffects(w, r) == [Send(w.conns[userid], Raw(msg))] && r.db == w.db
    ensures userid !in w.conns ==>
      r.log == w.log && QueryOffline(r.db, userid) == QueryOffline(w.db, userid) + [msg]
    ensures forall x :: x != userid ==> QueryOffline(r.db, x) == QueryOffline(w.db, x)
  {
    if userid in w.conns then w.(log := w.log + [Send(w.conns[userid], Raw(msg))])
    else w.(db := InsertOffline(w.db, userid, msg))
  }

  /** The relay callback routes exactly like `Deliver` except that a user who
      is online on another process gets the message queued, not republished. */
  lemma RelayInboundSkipsRelay(w: World, userid: int, msg: string)
    ensures PathOf(w, userid) != Relayed ==> RelayInbound(w, userid, msg) == Deliver(w, userid, msg)
    ensures PathOf(w, userid) == Relayed ==>
      RelayInbound(w, userid, msg) == w.(db := InsertOffline(w.db, userid, msg))
  {
  }

  // ------------------------------------------------------------- fan-out

  /** The effect one member's delivery produces, decided on `w` alone. */
  function Notice(w: World, to: int, payload: string): seq<Effect>
  {
    match PathOf(w, to)
    case Direct => [Send(w.conns[to], Raw(payload))]
    case Relayed => [Publish(to, payload)]
    case Stored => []
  }

  /** The effects of delivering to each of `ids` in turn, each decided on the
      presence facts of `w`. */
  function Notices(w: World, ids: seq<int>, payload: string): seq<Effect>
  {
    if ids == [] then [] else Notice(w, ids[0], payload) + Notices(w, ids[1..], payload)
  }

  /** `groupChat`'s loop: `Deliver` to each id in order. */
  function FanOut(w: World, ids: seq<int>, payload: string): (r: World)
    ensures r.conns == w.conns && r.db.users == w.db.users
    ensures r.db.(offline := w.db.offline) == w.db
    ensures |w.log| <= |r.log|
    ensures forall x :: x !in ids ==> QueryOffline(r.db, x) == QueryOffline(w.db, x)
    decreases |ids|
  {
    if ids == [] then w else FanOut(Deliver(w, ids[0], payload), ids[1..], payload)
  }

  lemma {:induction false} NoticesDependOnPresence(w: World, v: World, ids: seq<int>, payload: string)
    requires v.conns == w.conns && v.db.users == w.db.users
    ensures Notices(v, ids, payload) == Notices(w, ids, payload)
    decreases |ids|
  {
    if ids != [] {
      assert PathOf(v, ids[0]) == PathOf(w, ids[0]);
      NoticesDependOnPresence(w, v, ids[1..], payload);
    }
  }

  /** What fan-out leaves in `x`'s queue: one more copy of the payload per
      occurrence of `x` when `x` is unreachable, nothing otherwise. */
  function QueuedAfter(w: World, ids: seq<int>, payload: string, x: int): seq<string>
  {
    QueryOffline(w.db, x) + (if PathOf(w, x) == Stored then Repeat(payload, Count(ids, x)) else [])
  }

  /** Group fan-out sends or publishes once per reachable occurrence, in
      member order, each decided by that id's reachability alone. */
  lemma {:induction false} FanOutLog(w: World, ids: seq<int>, payload: string)
    ensures FanOut(w, ids, payload).log == w.log + Notices(w, ids, payload)
    decreases |ids|
  {
    if ids != [] {
      var w1 := Deliver(w, ids[0], payload);
      FanOutLog(w1, ids[1..], payload);
      NoticesDependOnPresence(w, w1, ids[1..], payload);
    }
  }

  /** Group fan-out queues one copy of the payload per occurrence of each
      unreachable id, and touches no other queue. */
  lemma {:induction false} FanOutQueues(w: World, ids: seq<int>, payload: string, x: int)
    ensures QueryOffline(FanOut(w, ids, payload).db, x) == QueuedAfter(w, ids, payload, x)
    decreases |ids|
  {
    if ids == [] {
    } else {
      var to := ids[0];
      var w1 := Deliver(w, to, payload);
      assert FanOut(w, ids, payload) == FanOut(w1, ids[1..], payload);
      FanOutQueues(w1, ids[1..], payload, x);
      assert PathOf(w1, x) == PathOf(w, x);
      if x == to && PathOf(w, x) == Stored {
        var n := Count(ids[1..], x);
        assert Count(ids, x) == n + 1;
        assert QueryOffline(w1.db, x) == QueryOffline(w.db, x) + [payload];
        assert [payload] + Repeat(payload, n) == Repeat(payload, n + 1);
      }
    }
  }

  /** Every listed id's own notice is among the notices of the list. */
  lemma {:induction false} NoticeListed(w: World, ids: seq<int>, payload: string, x: int)
    requires x in ids
    ensures forall e :: e in Notice(w, x, payload) ==> e in Notices(w, ids, payload)
    decreases |ids|
  {
    if ids[0] != x {
      assert x in ids[1..];
      NoticeListed(w, ids[1..], payload, x);
    }
  }

  /** The same fan-out written as the source's loop over the member list. */
  method FanOutLoop(w: World, ids: seq<int>, payload: string) returns (r: World)
    ensures r == FanOut(w, ids, payload)
    ensures r.log == w.log + Notices(w, ids, payload)
  {
    r := w;
    var i := 0;
    while i < |ids|
      invariant 0 <= i <= |ids|
      invariant FanOut(r, ids[i..], payload) == FanOut(w, ids, payload)
    {
      assert ids[i..][1..] == ids[i + 1..];
      r := Deliver(r, ids[i], payload);
      i := i + 1;
    }
    FanOutLog(w, ids, payload);
  }
}
