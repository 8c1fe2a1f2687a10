/** The message-type dispatch table: the service's constructor registers one
    handler per message type with `emplace`, and `getHandler` resolves a tag
    to its handler or to a default that only logs. The numeric tags come
    from an enumeration that is not part of this model; they are a
    parameter here. */
module Dispatch {
  import opened Common
  import opened Storage
  import opened Registry
  import opened ChatState
  import opened ChatService

  datatype Kind =
    | LoginMsg | LogoutMsg | RegMsg | OneChatMsg | AddFriendMsg
    | CreateGroupMsg | AddGroupMsg | GroupChatMsg

  /** The numeric tags of the eight request types. */
  datatype MsgIds = MsgIds(
    login: int, logout: int, reg: int, oneChat: int, addFriend: int,
    createGroup: int, addGroup: int, groupChat: int)

  /** Enumeration members have pairwise different values. */
  predicate Distinct(ids: MsgIds)
  {
    var t := [ids.login, ids.logout, ids.reg, ids.oneChat, ids.addFriend,
              ids.createGroup, ids.addGroup, ids.groupChat];
    forall i, j :: 0 <= i < j < |t| ==> t[i] != t[j]
  }

  /** The constructor's registrations, in the order it makes them. */
  function Registrations(ids: MsgIds): seq<(int, Kind)>
  {
    [(ids.login, LoginMsg), (ids.logout, LogoutMsg), (ids.reg, RegMsg),
     (ids.oneChat, OneChatMsg), (ids.addFriend, AddFriendMsg),
     (ids.createGroup, CreateGroupMsg), (ids.addGroup, AddGroupMsg),
     (ids.groupChat, GroupChatMsg)]
  }

  /** Registers `regs` in order into `m` with `emplace`. */
  function Build(m: map<int, Kind>, regs: seq<(int, Kind)>): map<int, Kind>
    decreases |regs|
  {
    if regs == [] then m else Build(Emplace(m, regs[0].0, regs[0].1), regs[1..])
  }

  /** The constructor's table: every registered tag, each bound to the
      kind of its earliest registration; login, registered first, always
      keeps its own handler. */
  function HandlerTable(ids: MsgIds): (t: map<int, Kind>)
    ensures forall k :: k in t <==> FirstKind(Registrations(ids), k).Some?
    ensures forall k :: k in t ==> FirstKind(Registrations(ids), k) == Some(t[k])
    ensures ids.login in t && t[ids.login] == LoginMsg
  {
    var regs := Registrations(ids);
    assert forall k :: (k in Build(map[], regs) <==> FirstKind(regs, k).Some?)
                       && (k in Build(map[], regs) ==> FirstKind(regs, k) == Some(Build(map[], regs)[k])) by {
      forall k
        ensures k in Build(map[], regs) <==> FirstKind(regs, k).Some?
        ensures k in Build(map[], regs) ==> FirstKind(regs, k) == Some(Build(map[], regs)[k])
      {
        BuildFirstWins(map[], regs, k);
      }
    }
    Build(map[], regs)
  }

  /** The kind of the earliest registration for tag `k`. */
  function FirstKind(regs: seq<(int, Kind)>, k: int): Option<Kind>
  {
    if regs == [] then None
    else if regs[0].0 == k then Some(regs[0].1)
    else FirstKind(regs[1..], k)
  }

  /** Registering with `emplace` keeps what was there and, for a new tag, the
      earliest registration: later ones for the same tag are ignored. */
  lemma {:induction false} BuildFirstWins(m: map<int, Kind>, regs: seq<(int, Kind)>, k: int)
    ensures k in Build(m, regs) <==> k in m || FirstKind(regs, k).Some?
    ensures k in m ==> Build(m, regs)[k] == m[k]
    ensures k !in m && FirstKind(regs, k).Some? ==> Build(m, regs)[k] == FirstKind(regs, k).value
    decreases |regs|
  {
    if regs != [] {
      BuildFirstWins(Emplace(m, regs[0].0, regs[0].1), regs[1..], k);
    }
  }

  /** The earliest registration for `k` is the one at the first index that
      carries `k`. */
  lemma {:induction false} FirstKindAt(regs: seq<(int, Kind)>, k: int, i: int)
    requires 0 <= i < |regs| && regs[i].0 == k
    requires forall j :: 0 <= j < i ==> regs[j].0 != k
    ensures FirstKind(regs, k) == Some(regs[i].1)
    decreases i
  {
    if i > 0 {
      FirstKindAt(regs[1..], k, i - 1);
    }
  }

  /** A tag no registration carries has no earliest registration. */
  lemma {:induction false} FirstKindAbsent(regs: seq<(int, Kind)>, k: int)
    requires forall j :: 0 <= j < |regs| ==> regs[j].0 != k
    ensures FirstKind(regs, k) == None
    decreases |regs|
  {
    if regs != [] {
      FirstKindAbsent(regs[1..], k);
    }
  }

  /** With distinct tags, the table holds exactly the eight tags, each bound
      to its own handler. */
  lemma RegisteredTagsResolve(ids: MsgIds)
    requires Distinct(ids)
    ensures HandlerTable(ids).Keys == {ids.login, ids.logout, ids.reg, ids.oneChat,
                                       ids.addFriend, ids.createGroup, ids.addGroup, ids.groupChat}
    ensures GetHandler(HandlerTable(ids), ids.login) == Bound(LoginMsg)
    ensures GetHandler(HandlerTable(ids), ids.logout) == Bound(LogoutMsg)
    ensures GetHandler(HandlerTable(ids), ids.reg) == Bound(RegMsg)
    ensures GetHandler(HandlerTable(ids), ids.oneChat) == Bound(OneChatMsg)
    ensures GetHandler(HandlerTable(ids), ids.addFriend) == Bound(AddFriendMsg)
    ensures GetHandler(HandlerTable(ids), ids.createGroup) == Bound(CreateGroupMsg)
    ensures GetHandler(HandlerTable(ids), ids.addGroup) == Bound(AddGroupMsg)
    ensures GetHandler(HandlerTable(ids), ids.groupChat) == Bound(GroupChatMsg)
  {
    var regs := Registrations(ids);
    var t := HandlerTable(ids);
    var tags := [ids.login, ids.logout, ids.reg, ids.oneChat, ids.addFriend,
                 ids.createGroup, ids.addGroup, ids.groupChat];
    assert forall j :: 0 <= j < |regs| ==> regs[j].0 == tags[j];
    assert forall i, j :: 0 <= i < j < |tags| ==> tags[i] != tags[j];
    forall i | 0 <= i < |regs|
      ensures regs[i].0 in t && t[regs[i].0] == regs[i].1
    {
      FirstKindAt(regs, regs[i].0, i);
      BuildFirstWins(map[], regs, regs[i].0);
    }
    forall k | k !in {ids.login, ids.logout, ids.reg, ids.oneChat,
                      ids.addFriend, ids.createGroup, ids.addGroup, ids.groupChat}
      ensures k !in t
    {
      FirstKindAbsent(regs, k);
      BuildFirstWins(map[], regs, k);
    }
    assert regs[0].0 == ids.login && regs[1].0 == ids.logout && regs[2].0 == ids.reg
      && regs[3].0 == ids.oneChat && regs[4].0 == ids.addFriend && regs[5].0 == ids.createGroup
      && regs[6].0 == ids.addGroup && regs[7].0 == ids.groupChat;
  }

  datatype Handler = Bound(kind: Kind) | Unknown(msgid: int)

  /** `getHandler`: the registered handler, or the logging default. */
  function GetHandler(table: map<int, Kind>, msgid: int): (h: Handler)
    ensures h.Bound? <==> msgid in table
    ensures h.Bound? ==> h.kind == table[msgid]
  {
    if msgid in table then Bound(table[msgid]) else Unknown(msgid)
  }

  /** Invokes a handler on one decoded message. `accept` is the storage's
      verdict on the insert that registration and group creation make. */
  function Run(h: Handler, w: World, conn: Conn, js: Msg, accept: bool): (r: World)
    requires Valid(w.db)
    ensures Valid(r.db)
    // the default handler only logs
    ensures h.Unknown? ==> r == w
    // effects are only ever appended
    ensures |w.log| <= |r.log| && r.log[..|w.log|] == w.log
  {
    match h
    case Unknown(_) => w
    case Bound(k) =>
      match k
      case LoginMsg => Login(w, conn, js.id, js.password)
      case LogoutMsg => Logout(w, js.id)
      case RegMsg => Reg(w, conn, js.name, js.password, accept)
      case OneChatMsg => OneChat(w, js.toid, js.raw)
      case AddFriendMsg => AddFriend(w, js.id, js.friendid)
      case CreateGroupMsg => CreateGroupHandler(w, js.id, js.groupname, js.groupdesc, accept)
      case AddGroupMsg => AddGroup(w, js.id, js.groupid)
      case GroupChatMsg => GroupChat(w, js.id, js.groupid, js.raw)
  }

  /** One inbound message: resolve its tag, run the handler. An unknown tag
      changes nothing: no state, no reply, no relay traffic. */
  function Handle(table: map<int, Kind>, w: World, conn: Conn, js: Msg, accept: bool): (r: World)
    requires Valid(w.db)
    ensures js.msgid !in table ==> r == w
    ensures js.msgid in table ==> r == Run(Bound(table[js.msgid]), w, conn, js, accept)
  {
    Run(GetHandler(table, js.msgid), w, conn, js, accept)
  }

  /** Every handler reachable through the table keeps the store valid and
      the presence invariant: a registry entry always belongs to an existing
      user whose stored state is online. */
  lemma HandlePreservesGood(table: map<int, Kind>, w: World, conn: Conn, js: Msg, accept: bool)
    requires Good(w)
    ensures Good(Handle(table, w, conn, js, accept))
  {
  }
}
