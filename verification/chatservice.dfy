/** The chat service's business handlers, each treated as one atomic
    transition of the world. This is an assumption: the source's lock covers
    only the registry accesses. */
module ChatService {
  import opened Common
  import opened Users
  import opened Storage
  import opened Registry
  import opened ChatState
  import opened Routing

  /** Appends one acknowledgement on `conn` and changes nothing else. */
  function Reply(w: World, conn: Conn, resp: Response): (r: World)
    ensures r.conns == w.conns && r.db == w.db
    ensures r.log == w.log + [Send(conn, Ack(resp))]
  {
    w.(log := w.log + [Send(conn, Ack(resp))])
  }

  // ----------------------------------------------------------------- login

  /** The credential test as written: the queried user's id equals the
      requested id and the passwords agree. For an id with no row the query
      yields the default user, whose id is -1 and password empty. */
  function CredentialsAsWritten(db: Store, id: int, pwd: string): bool
  {
    var u := QueryUser(db, id);
    u.id == id && u.pwd == pwd
  }

  /** The intended test: a user row with that id exists and the passwords
      agree. */
  function Credentials(db: Store, id: int, pwd: string): bool
  {
    id in db.users && db.users[id].pwd == pwd
  }

  /** On a well-formed store the two tests agree, except that the written
      one also admits id -1 with an empty password. */
  lemma CredentialsAgree(db: Store, id: int, pwd: string)
    requires Valid(db)
    ensures CredentialsAsWritten(db, id, pwd) <==> Credentials(db, id, pwd) || (id == NO_ID && pwd == "")
  {
  }

  /** The login state machine with the credential verdict `admitted`: a
      rejection with errno 1, a rejection with errno 2 while the stored
      state is online, or registration (`emplace`), relay subscription,
      state update, draining of the offline queue and the welcome reply. */
  function LoginWith(w: World, conn: Conn, id: int, admitted: bool): (r: World)
    ensures |w.log| < |r.log|
  {
    var u := QueryUser(w.db, id);
    if !admitted then Reply(w, conn, LoginFailed(1))
    else if u.state == ONLINE then Reply(w, conn, LoginFailed(2))
    else
      var conns := Register(w.conns, id, conn);
      var db1 := UpdateState(w.db, u.SetState(ONLINE));
      var queued := QueryOffline(db1, id);
      var db2 := if |queued| > 0 then RemoveOffline(db1, id) else db1;
      var welcome := Welcome(u.id, u.name, NonEmpty(queued),
                             NonEmpty(QueryFriends(db2, id)), NonEmpty(QueryGroups(db2, id)));
      World(conns, db2, w.log + [Subscribe(id), Send(conn, Ack(LoginOk(welcome)))])
  }

  /** `login` with the written credential test. The user it works on is
      whatever the query returns, the default user for an id with no row. */
  function LoginAsWritten(w: World, conn: Conn, id: int, pwd: string): (r: World)
    ensures !CredentialsAsWritten(w.db, id, pwd) ==> r == w.(log := w.log + [Send(conn, Ack(LoginFailed(1)))])
    ensures CredentialsAsWritten(w.db, id, pwd) && QueryUser(w.db, id).state == ONLINE ==>
      r == w.(log := w.log + [Send(conn, Ack(LoginFailed(2)))])
    ensures CredentialsAsWritten(w.db, id, pwd) && QueryUser(w.db, id).state != ONLINE ==>
      && (id in w.conns ==> r.conns == w.conns)
      && (id !in w.conns ==> r.conns == w.conns[id := conn])
      && (id in w.db.users ==> r.db.users == w.db.users[id := w.db.users[id].SetState(ONLINE)])
      && (id !in w.db.users ==> r.db.users == w.db.users)
      && QueryOffline(r.db, id) == []
      && (forall x :: x != id ==> QueryOffline(r.db, x) == QueryOffline(w.db, x))
      && r.db.(users := w.db.users, offline := w.db.offline) == w.db
      && r.log == w.log + [Subscribe(id), Send(conn, Ack(LoginOk(Welcome(
           id, QueryUser(w.db, id).name, NonEmpty(QueryOffline(w.db, id)),
           NonEmpty(QueryFriends(r.db, id)), NonEmpty(QueryGroups(r.db, id))))))]
  {
    LoginWith(w, conn, id, CredentialsAsWritten(w.db, id, pwd))
  }

  /** `login`, with the credential test requiring an existing user row. */
  function Login(w: World, conn: Conn, id: int, pwd: string): (r: World)
    requires Valid(w.db)
    // unknown id or wrong password: errno 1, nothing else happens
    ensures !Credentials(w.db, id, pwd) ==> r == w.(log := w.log + [Send(conn, Ack(LoginFailed(1)))])
    // already online (here or on another process): errno 2, nothing else happens
    ensures Credentials(w.db, id, pwd) && w.db.users[id].state == ONLINE ==>
      r == w.(log := w.log + [Send(conn, Ack(LoginFailed(2)))])
    // success
    ensures Credentials(w.db, id, pwd) && w.db.users[id].state != ONLINE ==>
      && (id in w.conns ==> r.conns == w.conns)
      && (id !in w.conns ==> r.conns == w.conns[id := conn])
      && r.db.users == w.db.users[id := w.db.users[id].SetState(ONLINE)]
      && QueryOffline(r.db, id) == []
      && (forall x :: x != id ==> QueryOffline(r.db, x) == QueryOffline(w.db, x))
      && r.db.(users := w.db.users, offline := w.db.offline) == w.db
      && r.log == w.log + [Subscribe(id), Send(conn, Ack(LoginOk(Welcome(
           id, w.db.users[id].name, NonEmpty(QueryOffline(w.db, id)),
           NonEmpty(QueryFriends(r.db, id)), NonEmpty(QueryGroups(r.db, id))))))]
  {
    LoginWith(w, conn, id, Credentials(w.db, id, pwd))
  }

  /** The reply a world's last effect carries, if it is an acknowledgement. */
  function LastReply(w: World): Option<Response>
  {
    if |w.log| > 0 && w.log[|w.log| - 1].Send? && w.log[|w.log| - 1].out.Ack?
    then Some(w.log[|w.log| - 1].out.resp) else None
  }

  // ---------------------------------------------------------------- others

  /** `reg`: a default user given the name and password is inserted; the
      reply carries the new id (errno 0), or errno 1 when storage refuses. */
  function Reg(w: World, conn: Conn, name: string, pwd: string, accept: bool): (r: World)
    requires Valid(w.db)
    ensures Valid(r.db) && r.conns == w.conns
    ensures !accept ==> r == w.(log := w.log + [Send(conn, Ack(RegFailed))])
    ensures accept ==> exists id :: (1 <= id && id !in w.db.users
      && r.db.users == w.db.users[id := User(id, name, pwd, OFFLINE)]
      && r.log == w.log + [Send(conn, Ack(RegOk(id)))])
    ensures r.db.(users := w.db.users, nextUserId := w.db.nextUserId) == w.db
  {
    var u := NewUser().SetName(name).SetPwd(pwd);
    var (db, stored) := InsertUser(w.db, u, accept);
    match stored
    case Some(v) => World(w.conns, db, w.log + [Send(conn, Ack(RegOk(v.id)))])
    case None => Reply(w, conn, RegFailed)
  }

  /** `logout`: the registry entry under `id` goes, whatever connection it
      holds; the relay channel is dropped and the user marked offline. */
  function Logout(w: World, id: int): (r: World)
    ensures r.conns.Keys == w.conns.Keys - {id}
    ensures forall k :: k in r.conns ==> r.conns[k] == w.conns[k]
    ensures r.db.users.Keys == w.db.users.Keys
    ensures id in w.db.users ==> r.db.users[id] == w.db.users[id].SetState(OFFLINE)
    ensures forall k :: k in w.db.users && k != id ==> r.db.users[k] == w.db.users[k]
    ensures r.db.(users := w.db.users) == w.db
    ensures r.log == w.log + [Unsubscribe(id)]
  {
    World(UnregisterId(w.conns, id), UpdateState(w.db, NewUser(id, "", "", OFFLINE)),
          w.log + [Unsubscribe(id)])
  }

  /** `clientCloseException`: the entry bound to `conn` (if any) goes and its
      user is marked offline; with no entry the registry and storage stay as
      they are, yet an unsubscribe for the default id -1 is still issued. */
  ghost function ClientCloseException(w: World, conn: Conn): (r: World)
    ensures (forall k :: k in w.conns ==> w.conns[k] != conn) ==>
      r == w.(log := w.log + [Unsubscribe(NO_ID)])
    ensures (exists k :: k in w.conns && w.conns[k] == conn) ==> |r.conns| == |w.conns| - 1
    ensures r.conns.Keys <= w.conns.Keys && |w.conns| <= |r.conns| + 1
    ensures |r.log| == |w.log| + 1 && r.log[..|w.log|] == w.log
    ensures forall k :: k in w.conns && k !in r.conns ==>
      && w.conns[k] == conn
      && r.conns == UnregisterId(w.conns, k)
      && r.log[|w.log|] == Unsubscribe(k)
      && (k != NO_ID && k in w.db.users ==> r.db.users == w.db.users[k := w.db.users[k].SetState(OFFLINE)])
      && (k == NO_ID || k !in w.db.users ==> r.db == w.db)
    ensures r.db.(users := w.db.users) == w.db
    ensures r.db.users.Keys == w.db.users.Keys
  {
    var (conns, found) := UnregisterConn(w.conns, conn);
    var u := match found case Some(k) => NewUser().SetId(k) case None => NewUser();
    var db := if u.id != NO_ID then UpdateState(w.db, u.SetState(OFFLINE)) else w.db;
    World(conns, db, w.log + [Unsubscribe(u.id)])
  }

  /** `oneChat`: the whole received message is routed to `toid`. */
  function OneChat(w: World, toid: int, raw: string): (r: World)
    ensures r.conns == w.conns && r.db.users == w.db.users && |w.log| <= |r.log|
    ensures toid in w.conns ==> r.db == w.db && r.log == w.log + [Send(w.conns[toid], Raw(raw))]
    ensures toid !in w.conns ==> forall e :: e in NewEffects(w, r) ==> !e.Send?
    ensures r.db.(offline := w.db.offline) == w.db
    ensures forall x :: x != toid ==> QueryOffline(r.db, x) == QueryOffline(w.db, x)
    // online on another process: published on the target's relay channel
    ensures toid !in w.conns && QueryUser(w.db, toid).state == ONLINE ==>
      r.db == w.db && r.log == w.log + [Publish(toid, raw)]
    // offline: appended to the target's queue, no effect
    ensures toid !in w.conns && QueryUser(w.db, toid).state != ONLINE ==>
      r.log == w.log && QueryOffline(r.db, toid) == QueryOffline(w.db, toid) + [raw]
  {
    Deliver(w, toid, raw)
  }

  /** `addFriend`: the edge `userid -> friendid` is stored, nothing else. */
  function AddFriend(w: World, userid: int, friendid: int): (r: World)
    ensures r.db.friends == w.db.friends + [Friendship(userid, friendid)]
    ensures r.db.(friends := w.db.friends) == w.db
    ensures r.conns == w.conns && r.log == w.log
  {
    w.(db := InsertFriend(w.db, userid, friendid))
  }

  /** `createGroup`: a creator membership is recorded exactly when the group
      itself was stored. */
  function CreateGroupHandler(w: World, userid: int, name: string, desc: string, accept: bool): (r: World)
    requires Valid(w.db)
    ensures Valid(r.db) && r.conns == w.conns && r.log == w.log && r.db.users == w.db.users
    ensures !accept ==> r == w
    ensures accept ==> exists gid :: (1 <= gid && gid !in w.db.groups
      && r.db.groups == w.db.groups[gid := Group(gid, name, desc)]
      && r.db.members == w.db.members + [Membership(gid, userid, CREATOR)])
    ensures r.db.(groups := w.db.groups, nextGroupId := w.db.nextGroupId, members := w.db.members) == w.db
  {
    var (db, created) := CreateGroup(w.db, name, desc, accept);
    match created
    case Some(gid) => w.(db := AddMembership(db, userid, gid, CREATOR))
    case None => w
  }

  /** `addGroup`: a normal membership is recorded, nothing else. */
  function AddGroup(w: World, userid: int, groupid: int): (r: World)
    ensures r.db.members == w.db.members + [Membership(groupid, userid, NORMAL)]
    ensures r.db.(members := w.db.members) == w.db
    ensures r.conns == w.conns && r.log == w.log
  {
    w.(db := AddMembership(w.db, userid, groupid, NORMAL))
  }

  /** `groupChat`: the message is routed to every other member of the group. */
  function GroupChat(w: World, userid: int, groupid: int, raw: string): (r: World)
    ensures r.conns == w.conns && r.db.users == w.db.users
    ensures r.log == w.log + Notices(w, QueryGroupUsers(w.db, userid, groupid), raw)
    ensures QueryOffline(r.db, userid) == QueryOffline(w.db, userid)
    ensures r.db.(offline := w.db.offline) == w.db
    // each unreachable member's queue gains the message once per listing
    ensures forall x :: QueryOffline(r.db, x) == QueuedAfter(w, QueryGroupUsers(w.db, userid, groupid), raw, x)
  {
    var ids := QueryGroupUsers(w.db, userid, groupid);
    FanOutLog(w, ids, raw);
    assert forall x :: QueryOffline(FanOut(w, ids, raw).db, x) == QueuedAfter(w, ids, raw, x) by {
      forall x
        ensures QueryOffline(FanOut(w, ids, raw).db, x) == QueuedAfter(w, ids, raw, x)
      {
        FanOutQueues(w, ids, raw, x);
      }
    }
    FanOut(w, ids, raw)
  }
}
