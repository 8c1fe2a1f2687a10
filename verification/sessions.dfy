/** Properties of handler sequences: one session per user, exactly-once
    draining of the offline queue, cleanup after an abrupt disconnect, the
    presence invariant, and the default-user login that the written
    credential test lets through. */
module Sessions {
  import opened Common
  import opened Users
  import opened Storage
  import opened Registry
  import opened ChatState
  import opened Routing
  import opened ChatService

  /** While the presence invariant holds, a login for an id that already has
      a registry entry never succeeds and never touches the registry. */
  lemma RegisteredLoginRejected(w: World, conn: Conn, id: int, pwd: string)
    requires Good(w) && id in w.conns
    ensures Login(w, conn, id, pwd).conns == w.conns
    ensures LastReply(Login(w, conn, id, pwd)) in {Some(LoginFailed(1)), Some(LoginFailed(2))}
  {
  }

  /** After a successful login, a second login for the same user (from any
      connection, with the right password) is refused with errno 2. */
  lemma SecondLoginRejected(w: World, c1: Conn, c2: Conn, id: int, pwd: string)
    requires Valid(w.db) && Credentials(w.db, id, pwd) && w.db.users[id].state != ONLINE
    ensures var w1 := Login(w, c1, id, pwd);
      && LastReply(w1).Some? && LastReply(w1).value.LoginOk?
      && Login(w1, c2, id, pwd) == w1.(log := w1.log + [Send(c2, Ack(LoginFailed(2)))])
  {
  }

  /** The offline queue is handed over at the first login after it filled and
      at no later one: logging in, out and in again shows the queue once. */
  lemma DrainExactlyOnce(w: World, c1: Conn, c2: Conn, id: int, pwd: string)
    requires Valid(w.db) && Credentials(w.db, id, pwd) && w.db.users[id].state != ONLINE
    ensures var w1 := Login(w, c1, id, pwd);
      && LastReply(w1).Some? && LastReply(w1).value.LoginOk?
      && LastReply(w1).value.welcome.offlinemsg == NonEmpty(QueryOffline(w.db, id))
      && var w3 := Login(Logout(w1, id), c2, id, pwd);
         && LastReply(w3).Some? && LastReply(w3).value.LoginOk?
         && LastReply(w3).value.welcome.offlinemsg.None?
  {
  }

  /** A connection that logged in and then drops without logging out leaves
      the registry as it was before the login and its user offline. */
  lemma CloseAfterLogin(w: World, c: Conn, id: int, pwd: string)
    requires Good(w) && Credentials(w.db, id, pwd) && w.db.users[id].state != ONLINE
    requires forall k :: k in w.conns ==> w.conns[k] != c
    ensures var w2 := ClientCloseException(Login(w, c, id, pwd), c);
      && w2.conns == w.conns
      && w2.db.users[id].state == OFFLINE
      && w2.log[|w2.log| - 1] == Unsubscribe(id)
  {
  }

  /** Abrupt disconnect keeps the presence invariant and the store valid. */
  lemma ClientClosePreservesGood(w: World, c: Conn)
    requires Good(w)
    ensures Good(ClientCloseException(w, c))
  {
  }

  /** The written credential test admits the default user: on any valid
      store, a login for id -1 with an empty password succeeds, registers a
      session for a user that does not exist and subscribes channel -1. The
      intended test refuses it with errno 1. */
  lemma SentinelLoginAccepted(w: World, c: Conn)
    requires Valid(w.db)
    ensures var r := LoginAsWritten(w, c, NO_ID, "");
      && NO_ID in r.conns && NO_ID !in r.db.users
      && Subscribe(NO_ID) in r.log
      && LastReply(r).Some? && LastReply(r).value.LoginOk?
      && !Presence(r)
    ensures LastReply(Login(w, c, NO_ID, "")) == Some(LoginFailed(1))
  {
  }

  /** A friend added before a successful login is listed, with its name and
      current state, in that login's welcome. */
  lemma AddedFriendListed(w: World, c: Conn, u: int, f: int, pwd: string)
    requires Valid(w.db) && Credentials(w.db, u, pwd) && w.db.users[u].state != ONLINE
    requires f in w.db.users
    ensures var r := Login(AddFriend(w, u, f), c, u, pwd);
      && LastReply(r).Some? && LastReply(r).value.LoginOk?
      && LastReply(r).value.welcome.friends.Some?
      && Peer(f, w.db.users[f].name, r.db.users[f].state) in LastReply(r).value.welcome.friends.value
  {
  }

  /** A recipient of a group message is reached by its own path: on its local
      connection, through the relay, or as the newest entry of its queue. */
  lemma RecipientReached(w: World, x: int, g: int, u: int, raw: string)
    requires u in QueryGroupUsers(w.db, x, g)
    ensures var r := GroupChat(w, x, g, raw);
      && (u in w.conns ==> Send(w.conns[u], Raw(raw)) in r.log[|w.log|..])
      && (u !in w.conns && QueryUser(w.db, u).state == ONLINE ==> Publish(u, raw) in r.log[|w.log|..])
      && (u !in w.conns && QueryUser(w.db, u).state != ONLINE ==>
            |QueryOffline(r.db, u)| > 0 && QueryOffline(r.db, u)[|QueryOffline(r.db, u)| - 1] == raw)
  {
    var ids := QueryGroupUsers(w.db, x, g);
    var r := GroupChat(w, x, g, raw);
    assert r.log[|w.log|..] == Notices(w, ids, raw);
    NoticeListed(w, ids, raw, u);
    var q := QueryOffline(r.db, u);
    assert q == QueuedAfter(w, ids, raw, u);
    if PathOf(w, u) == Stored {
      var n := Count(ids, u);
      assert q == QueryOffline(w.db, u) + Repeat(raw, n) && n > 0;
      assert q[|q| - 1] == Repeat(raw, n)[n - 1];
    }
  }

  /** After joining a group, a member is among the recipients of every other
      member's group message, and that message reaches it: on its local
      connection, through the relay, or in its offline queue. */
  lemma JoinedMemberReached(w: World, u: int, g: int, x: int, raw: string)
    requires x != u
    ensures u in QueryGroupUsers(AddGroup(w, u, g).db, x, g)
    ensures var r := GroupChat(AddGroup(w, u, g), x, g, raw);
      && (u in w.conns ==> Send(w.conns[u], Raw(raw)) in r.log[|w.log|..])
      && (u !in w.conns && QueryUser(w.db, u).state == ONLINE ==> Publish(u, raw) in r.log[|w.log|..])
      && (u !in w.conns && QueryUser(w.db, u).state != ONLINE ==>
            |QueryOffline(r.db, u)| > 0 && QueryOffline(r.db, u)[|QueryOffline(r.db, u)| - 1] == raw)
  {
    var w1 := AddGroup(w, u, g);
    assert Membership(g, u, NORMAL) in w1.db.members;
    RecipientReached(w1, x, g, u, raw);
  }

  /** An accepted group creation stores a group under an id that was free
      before and makes the creator a recipient of every other member's group
      message to it. */
  lemma CreatorReached(w: World, u: int, name: string, desc: string)
    requires Valid(w.db)
    ensures var r := CreateGroupHandler(w, u, name, desc, true);
      exists gid :: gid !in w.db.groups && gid in r.db.groups && r.db.groups[gid] == Group(gid, name, desc)
        && forall x :: x != u ==> u in QueryGroupUsers(r.db, x, gid)
  {
    var r := CreateGroupHandler(w, u, name, desc, true);
    var gid :| 1 <= gid && gid !in w.db.groups
      && r.db.groups == w.db.groups[gid := Group(gid, name, desc)]
      && r.db.members == w.db.members + [Membership(gid, u, CREATOR)];
    assert Membership(gid, u, CREATOR) in r.db.members;
  }
}
