/** The data-access layer the chat service consumes (user, offline-message,
    friend and group models), as abstract tables. Row ids are handed out by
    the storage from counters, as an auto-increment column would; whether
    the storage accepts an insert at all is its own decision and arrives as
    a parameter. */
module Storage {
  import opened Common
  import opened Users

  const CREATOR: string := "creator"
  const NORMAL: string := "normal"

  datatype Friendship = Friendship(userid: int, friendid: int)
  datatype Group = Group(id: int, name: string, desc: string)
  datatype Membership = Membership(groupid: int, userid: int, role: string)

  /** What a friend or group listing exposes about a user: no password. */
  datatype Peer = Peer(id: int, name: string, state: string)
  datatype Member = Member(id: int, name: string, state: string, role: string)
  datatype GroupView = GroupView(id: int, name: string, desc: string, users: seq<Member>)

  datatype Store = Store(
    users: map<int, User>,
    nextUserId: int,
    offline: map<int, seq<string>>,
    friends: seq<Friendship>,
    groups: map<int, Group>,
    nextGroupId: int,
    members: seq<Membership>)

  /** Storage-assigned ids are positive, each row's id column agrees with
      its key, and the counters are above every id handed out. */
  ghost predicate Valid(db: Store)
  {
    && db.nextUserId >= 1
    && db.nextGroupId >= 1
    && (forall k :: k in db.users ==> 1 <= k < db.nextUserId && db.users[k].id == k)
    && (forall g :: g in db.groups ==> 1 <= g < db.nextGroupId && db.groups[g].id == g)
  }

  // ---------------------------------------------------------------- users

  /** `UserModel::query(id)`: the stored row, or a default-constructed user
      (id -1, offline) when no row has that id. */
  function QueryUser(db: Store, id: int): (u: User)
    ensures id in db.users ==> u == db.users[id]
    ensures id !in db.users ==> u.id == NO_ID && u.state == OFFLINE && u.pwd == ""
  {
    if id in db.users then db.users[id] else NewUser()
  }

  /** `UserModel::updateState(user)`: writes the state column of the row
      whose id is `u.id`; nothing happens when there is no such row. */
  function UpdateState(db: Store, u: User): (r: Store)
    ensures r.users.Keys == db.users.Keys
    ensures u.id in db.users ==> r.users[u.id] == db.users[u.id].SetState(u.state)
    ensures forall k :: k in db.users && k != u.id ==> r.users[k] == db.users[k]
    ensures r.(users := db.users) == db
  {
    if u.id in db.users then db.(users := db.users[u.id := db.users[u.id].SetState(u.state)])
    else db
  }

  /** `UserModel::insert(user)`: when the storage accepts, the row is stored
      under a fresh id that is written back into the user. */
  function InsertUser(db: Store, u: User, accept: bool): (r: (Store, Option<User>))
    requires Valid(db)
    ensures Valid(r.0)
    ensures !accept ==> r == (db, None)
    ensures accept ==> r.1.Some? && r.1.value == u.SetId(r.1.value.id)
    ensures accept ==> var id := r.1.value.id;
      && 1 <= id && id !in db.users
      && r.0.users == db.users[id := r.1.value]
      && r.0.(users := db.users, nextUserId := db.nextUserId) == db
  {
    if !accept then (db, None)
    else
      var stored := u.SetId(db.nextUserId);
      (db.(users := db.users[stored.id := stored], nextUserId := db.nextUserId + 1), Some(stored))
  }

  // ------------------------------------------------------ offline messages

  /** `offlineMsgModel::query(id)`: the user's queued payloads, oldest first. */
  function QueryOffline(db: Store, id: int): seq<string>
  {
    if id in db.offline then db.offline[id] else []
  }

  /** `offlineMsgModel::insert(id, msg)`: appends to that user's queue only. */
  function InsertOffline(db: Store, id: int, msg: string): (r: Store)
    ensures QueryOffline(r, id) == QueryOffline(db, id) + [msg]
    ensures forall x :: x != id ==> QueryOffline(r, x) == QueryOffline(db, x)
    ensures r.(offline := db.offline) == db
  {
    db.(offline := db.offline[id := QueryOffline(db, id) + [msg]])
  }

  /** `offlineMsgModel::remove(id)`: deletes that user's whole queue. */
  function RemoveOffline(db: Store, id: int): (r: Store)
    ensures QueryOffline(r, id) == []
    ensures forall x :: x != id ==> QueryOffline(r, x) == QueryOffline(db, x)
    ensures r.(offline := db.offline) == db
  {
    db.(offline := db.offline - {id})
  }

  // --------------------------------------------------------------- friends

  /** `FriendModel::insert(userid, friendid)`: records the edge; no check that
      either user exists and no duplicate suppression. */
  function InsertFriend(db: Store, userid: int, friendid: int): (r: Store)
    ensures multiset(r.friends) == multiset(db.friends) + multiset{Friendship(userid, friendid)}
    ensures r.(friends := db.friends) == db
  {
    db.(friends := db.friends + [Friendship(userid, friendid)])
  }

  /** The users named by `edges` as friends of `id`, in edge order, skipping
      ids with no user row (the listing joins with the user table). */
  function FriendPeers(users: map<int, User>, edges: seq<Friendship>, id: int): (r: seq<Peer>)
    ensures |r| <= |edges|
    ensures forall p :: p in r ==>
      p.id in users && Friendship(id, p.id) in edges && p == Peer(p.id, users[p.id].name, users[p.id].state)
    ensures forall e :: e in edges && e.userid == id && e.friendid in users ==>
      Peer(e.friendid, users[e.friendid].name, users[e.friendid].state) in r
  {
    if edges == [] then []
    else
      var rest := FriendPeers(users, edges[1..], id);
      var e := edges[0];
      if e.userid == id && e.friendid in users
      then [Peer(e.friendid, users[e.friendid].name, users[e.friendid].state)] + rest
      else rest
  }

  /** `FriendModel::query(id)`. */
  function QueryFriends(db: Store, id: int): seq<Peer>
  {
    FriendPeers(db.users, db.friends, id)
  }

  // ---------------------------------------------------------------- groups

  /** `GroupModel::createGroup(group)`: when the storage accepts, the group is
      stored under a fresh id, which is returned. */
  function CreateGroup(db: Store, name: string, desc: string, accept: bool): (r: (Store, Option<int>))
    requires Valid(db)
    ensures Valid(r.0)
    ensures !accept ==> r == (db, None)
    ensures accept ==> r.1.Some? && 1 <= r.1.value && r.1.value !in db.groups
    ensures accept ==> r.0.groups == db.groups[r.1.value := Group(r.1.value, name, desc)]
    ensures accept ==> r.0.(groups := db.groups, nextGroupId := db.nextGroupId) == db
  {
    if !accept then (db, None)
    else
      var gid := db.nextGroupId;
      (db.(groups := db.groups[gid := Group(gid, name, desc)], nextGroupId := gid + 1), Some(gid))
  }

  /** `GroupModel::addGroup(userid, groupid, role)`: records a membership; no
      check that the group or the user exists. */
  function AddMembership(db: Store, userid: int, groupid: int, role: string): (r: Store)
    ensures Membership(groupid, userid, role) in r.members
    ensures multiset(r.members) == multiset(db.members) + multiset{Membership(groupid, userid, role)}
    ensures r.(members := db.members) == db
  {
    db.(members := db.members + [Membership(groupid, userid, role)])
  }

  /** The ids of the members of `groupid` other than `requester`, in
      membership order; a user enrolled twice appears twice. */
  function OtherMemberIds(ms: seq<Membership>, requester: int, groupid: int): (r: seq<int>)
    ensures forall x :: x in r ==> x != requester && exists m :: m in ms && m.groupid == groupid && m.userid == x
    ensures forall m :: m in ms && m.groupid == groupid && m.userid != requester ==> m.userid in r
    ensures forall x :: x != requester ==> multiset(r)[x] == Enrolments(ms, groupid, x)
  {
    if ms == [] then []
    else
      var rest := OtherMemberIds(ms[1..], requester, groupid);
      if ms[0].groupid == groupid && ms[0].userid != requester then [ms[0].userid] + rest else rest
  }

  /** How many membership rows enrol `userid` in `groupid`. */
  function Enrolments(ms: seq<Membership>, groupid: int, userid: int): nat
  {
    if ms == [] then 0
    else (if ms[0].groupid == groupid && ms[0].userid == userid then 1 else 0)
         + Enrolments(ms[1..], groupid, userid)
  }

  /** `GroupModel::queryGroupUsers(userid, groupid)`. */
  function QueryGroupUsers(db: Store, userid: int, groupid: int): seq<int>
  {
    OtherMemberIds(db.members, userid, groupid)
  }

  /** The members of `groupid` that have a user row, with their role. */
  function GroupMembers(users: map<int, User>, ms: seq<Membership>, groupid: int): (r: seq<Member>)
    ensures |r| <= |ms|
    ensures forall v :: v in r ==>
      v.id in users && Membership(groupid, v.id, v.role) in ms
      && v.name == users[v.id].name && v.state == users[v.id].state
    ensures forall m :: m in ms && m.groupid == groupid && m.userid in users ==>
      Member(m.userid, users[m.userid].name, users[m.userid].state, m.role) in r
  {
    if ms == [] then []
    else
      var rest := GroupMembers(users, ms[1..], groupid);
      var m := ms[0];
      if m.groupid == groupid && m.userid in users
      then [Member(m.userid, users[m.userid].name, users[m.userid].state, m.role)] + rest
      else rest
  }

  /** The groups `userid` belongs to (one entry per membership row), each with
      its full member list. */
  function GroupsOf(db: Store, ms: seq<Membership>, userid: int): (r: seq<GroupView>)
    ensures |r| <= |ms|
    ensures forall g :: g in r ==>
      g.id in db.groups && (exists m :: m in ms && m.userid == userid && m.groupid == g.id)
      && g == GroupView(g.id, db.groups[g.id].name, db.groups[g.id].desc,
                        GroupMembers(db.users, db.members, g.id))
    ensures forall m :: m in ms && m.userid == userid && m.groupid in db.groups ==>
      exists g :: g in r && g.id == m.groupid
  {
    if ms == [] then []
    else
      var rest := GroupsOf(db, ms[1..], userid);
      var m := ms[0];
      if m.userid == userid && m.groupid in db.groups
      then
        var grp := db.groups[m.groupid];
        [GroupView(m.groupid, grp.name, grp.desc, GroupMembers(db.users, db.members, m.groupid))] + rest
      else rest
  }

  /** `GroupModel::queryGroups(userid)`. */
  function QueryGroups(db: Store, userid: int): seq<GroupView>
  {
    GroupsOf(db, db.members, userid)
  }
}
