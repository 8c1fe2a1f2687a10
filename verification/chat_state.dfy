/** The world the chat service acts on: the connection registry, the storage
    behind the data-access layer, and the log of externally visible effects
    (sends on a connection and relay publish / subscribe / unsubscribe). */
module ChatState {
  import opened Common
  import opened Users
  import opened Storage
  import opened Registry

  /** The login acknowledgement's payload on success (errno 0). A list the
      source leaves out of the response when it is empty is `None`. */
  datatype Welcome = Welcome(
    id: int,
    name: string,
    offlinemsg: Option<seq<string>>,
    friends: Option<seq<Peer>>,
    groups: Option<seq<GroupView>>)

  /** The acknowledgements the service sends; `errmsg` text is not kept. */
  datatype Response =
    | LoginFailed(errno: int)
    | LoginOk(welcome: Welcome)
    | RegOk(id: int)
    | RegFailed

  /** What goes down a connection: a forwarded chat message exactly as
      received, or an acknowledgement. */
  datatype Outbound = Raw(payload: string) | Ack(resp: Response)

  datatype Effect =
    | Send(conn: Conn, out: Outbound)
    | Publish(channel: int, payload: string)
    | Subscribe(channel: int)
    | Unsubscribe(channel: int)

  datatype World = World(conns: Conns, db: Store, log: seq<Effect>)

  /** An inbound message after decoding: the fields the handlers read, and
      `raw`, its serialized form as forwarded to other users. */
  datatype Msg = Msg(
    msgid: int,
    id: int,
    password: string,
    name: string,
    toid: int,
    friendid: int,
    groupid: int,
    groupname: string,
    groupdesc: string,
    raw: string)

  /** Every registered user exists and is marked online: the registry never
      holds a session the storage considers closed. */
  ghost predicate Presence(w: World)
  {
    forall k :: k in w.conns ==> k in w.db.users && w.db.users[k].state == ONLINE
  }

  ghost predicate Good(w: World)
  {
    Valid(w.db) && Presence(w)
  }

  /** The effects appended to the log since `w`. */
  function NewEffects(w: World, r: World): seq<Effect>
    requires |w.log| <= |r.log|
  {
    r.log[|w.log|..]
  }
}
