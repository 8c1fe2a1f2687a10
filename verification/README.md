# Chat service routing and presence, in Dafny

This project models the message routing and presence engine of a C++ chat
server (`ChatService`). The server keeps a process-local registry of logged-in
users and their connections. It delivers one-to-one and group messages in a
fixed order of preference: directly over a local connection, then through a
publish/subscribe relay to another server process, then into a durable offline
queue. The offline queue is drained at the user's next login.

The model is functional. A `World` value holds:

- the connection registry, a map from user id to connection handle;
- the storage behind the data-access layer: users, offline queues, friend
  edges, groups and memberships;
- a log of externally visible effects: `send` on a connection, and relay
  `publish`, `subscribe` and `unsubscribe`.

Each handler is one pure transition, taken as one atomic step. This is an
assumption: the source's `_connMutex` guards only the registry accesses, and
`reg`, `addFriend`, `createGroup` and `addGroup` take no lock at all. Storage
is also shared with the other server processes, whose writes are not
transitions of this model; see "## Left out".

Files:

- `common.dfy` holds `Option`, the `emplace` insertion of C++ keyed maps, and
  small sequence helpers.
- `user.dfy` holds the `User` record: constructor defaults and setters.
- `storage.dfy` holds the data-access layer as abstract tables.
- `registry.dfy` holds the connection registry: register, unregister by id,
  and unregister by connection.
- `chat_state.dfy` holds the world, the effects, the responses and the
  decoded inbound message.
- `routing.dfy` holds the three-way delivery decision, group fan-out and the
  relay's inbound callback.
- `chatservice.dfy` holds the handlers.
- `sessions.dfy` holds properties that span several handler calls.
- `dispatch.dfy` holds the handler table and `getHandler`.

Three details follow the code rather than what one might expect:

- Login registers with `emplace`. An existing entry for the id is kept, not
  overwritten.
- Logout removes by id only.
- An abrupt disconnect that finds no entry still issues `unsubscribe(-1)`.

The storage classes (`UserModel`, `offlineMsgModel`, `FriendModel`,
`GroupModel`) are not part of this model. Their behaviour is modelled as
follows:

- `UserModel::query` returns the stored row, or a default `User` (id -1,
  offline) when no row has that id. The written login check relies on this
  default. (The -1 test in `clientCloseException` at chatservice.cpp:238 relies
  instead on its own default-constructed `User` at :219.)
- Row ids are handed out from counters and are positive, like an
  auto-increment column.
- Whether storage accepts a user or group insert is an input, `accept`.
- `queryGroupUsers(userid, groupid)` returns the other members of the group.
  It excludes the requesting user, since the query takes that user's id. A
  reading that includes the sender would only add the sender to the fan-out.
- Message-type tags come from an enumeration that is not part of this model.
  They are a parameter, `MsgIds`, and are taken to be distinct.

## Model

| member | source | states |
|---|---|---|
| Users.NewUser | include/server/model/user.hpp:11-17 | reading a constructed user's fields back gives exactly the constructor's arguments, and the defaults (-1, "", "", "offline") when they are omitted |
| Users.User.SetId | include/server/model/user.hpp:19 | `setId` sets the id; restoring the old id gives back the original record, so nothing else changed |
| Users.User.SetName | include/server/model/user.hpp:20 | `setName` changes only the name |
| Users.User.SetPwd | include/server/model/user.hpp:21 | `setPwd` changes only the password |
| Users.User.SetState | include/server/model/user.hpp:22 | `setState` changes only the state, and `getState` then returns the new value |
| Users.SettersIndependent | include/server/model/user.hpp:19-27 | a setter followed by its getter returns the new value; setters of different fields commute; `setId` leaves name, password and state alone |
| Storage.QueryUser | src/server/chatservice.cpp:63-64 | the lookup returns the stored row, or a user with id -1, an empty password and state offline when no row matches |
| Storage.UpdateState | src/server/chatservice.cpp:87-88 | `updateState` changes only the state of the row with the given id; other rows and tables are unchanged; the call does nothing when the row is absent |
| Storage.InsertUser | src/server/chatservice.cpp:169-173 | an accepted insert stores the user under a fresh positive id written back into the user, and keeps the store valid; a refused insert changes nothing |
| Storage.InsertOffline | src/server/chatservice.cpp:270 | appends the payload to the recipient's queue and leaves every other queue alone |
| Storage.RemoveOffline | src/server/chatservice.cpp:102 | empties exactly the named user's queue |
| Storage.InsertFriend | src/server/chatservice.cpp:280 | adds exactly one friend edge and changes nothing else; duplicates are not suppressed |
| Storage.FriendPeers | src/server/chatservice.cpp:106-119 | the friend list holds exactly the existing users named by the user's edges, each with that user's name and state, and no password |
| Storage.CreateGroup | src/server/chatservice.cpp:291-292 | an accepted creation stores the group under a fresh positive id and keeps the store valid; a refused one changes nothing |
| Storage.AddMembership | src/server/chatservice.cpp:304 | adds exactly one membership row with the given role and changes nothing else |
| Storage.OtherMemberIds | src/server/chatservice.cpp:312 | the ids listed for a group chat are members of the group other than the sender; every such membership row contributes exactly one occurrence |
| Storage.GroupMembers | src/server/chatservice.cpp:133-141 | a group's member listing holds exactly its existing members, each with role, name and state |
| Storage.GroupsOf | src/server/chatservice.cpp:122-147 | the group listing shows each group the user belongs to, with its name, description and full member list, and shows no other group |
| Registry.Register | src/server/chatservice.cpp:78-81 | registration adds id -> conn only when the id is absent; an existing entry is kept |
| Registry.UnregisterId | src/server/chatservice.cpp:198-205 | removal by id drops exactly that key, whatever connection it holds, and is a no-op when the key is absent |
| Registry.FindByConn | src/server/chatservice.cpp:222-231 | the reverse lookup finds an id bound to the connection, and finds none exactly when no entry holds it |
| Registry.UnregisterConn | src/server/chatservice.cpp:219-232 | removal by connection drops one entry bound to it and reports its id; with no match the registry is unchanged |
| Routing.Deliver | src/server/chatservice.cpp:246-271 | exactly one path is taken. If the target is registered here, one send on its connection and no publish or queueing. Else, if stored state is online, one publish and no queueing. Else the payload is appended to its queue with no effect. Presence is never changed |
| Routing.RelayInbound | src/server/chatservice.cpp:341-353 | a relayed message is sent on the local connection when the user is registered here and is queued otherwise; it is never published again; only the offline queues change |
| Routing.RelayInboundSkipsRelay | src/server/chatservice.cpp:341-353 | the relay callback equals ordinary routing except for a user online elsewhere, whose message it queues instead of republishing |
| Routing.FanOut | src/server/chatservice.cpp:314-337 | group fan-out never changes the registry or the user table, and never touches the queue of a user not in the member list |
| Routing.FanOutLog | src/server/chatservice.cpp:314-337 | fan-out emits, in member order, one send or publish per reachable member, each decided by that member's own reachability before the fan-out |
| Routing.FanOutQueues | src/server/chatservice.cpp:314-337 | after fan-out, each unreachable member's queue has one more copy of the payload per time the member is listed; other queues are unchanged |
| Routing.FanOutLoop | src/server/chatservice.cpp:315-337 | the loop over the member list computes the recursive fan-out, and so emits the same effects |
| ChatService.CredentialsAgree | src/server/chatservice.cpp:63-64 | on a valid store, the written credential test accepts exactly what the intended test accepts, plus id -1 with an empty password |
| ChatService.LoginAsWritten | src/server/chatservice.cpp:58-161 | login with the written credential test, branch by branch: errno 1 when the test fails; errno 2 when the queried user is stored online; otherwise registration only if absent, `subscribe(id)`, the queried row (if any) set online, the queue drained, and errno 0 with the queried user's name and the listings |
| ChatService.Login | src/server/chatservice.cpp:58-161 | an unknown id or wrong password gets errno 1 and nothing else changes. Valid credentials while stored online get errno 2, with no registration and no subscribe. Otherwise: the id is registered only if absent; `subscribe(id)` is issued; the user is set online; the user's queue is emptied; other entries and queues are unchanged; the reply is errno 0 with id, name, the previous queue (only when non-empty), and the friend and group listings |
| ChatService.Reg | src/server/chatservice.cpp:164-191 | an accepted registration stores the user offline under a fresh positive id and replies errno 0 with that id; queues, friends, groups and memberships are untouched; a refused one replies errno 1 and changes nothing else |
| ChatService.Logout | src/server/chatservice.cpp:194-213 | removes exactly key `id` from the registry, whatever connection it holds; issues `unsubscribe(id)`; sets only that user offline |
| ChatService.ClientCloseException | src/server/chatservice.cpp:216-243 | drops the one entry bound to the connection, unsubscribes its id and sets that user offline. When that entry is under -1 or under an id with no user row, storage is unchanged. With no such entry, registry and storage are unchanged and `unsubscribe(-1)` is still issued |
| ChatService.OneChat | src/server/chatservice.cpp:246-271 | a registered target receives the exact received message on its connection with nothing stored. Otherwise a target stored online gets it published on its relay channel with nothing stored, and any other target gets it appended to its offline queue with no effect. Only that target's queue can change; the rest of the store is kept |
| ChatService.AddFriend | src/server/chatservice.cpp:274-281 | appends exactly one friend edge, keeping every existing one (duplicates included), and changes nothing else: no reply, no registry change |
| ChatService.CreateGroupHandler | src/server/chatservice.cpp:284-297 | a "creator" membership for the requester is added exactly when the group was stored, under the group's new id; users, queues and friend edges are untouched; a refused creation changes nothing |
| ChatService.AddGroup | src/server/chatservice.cpp:300-305 | adds exactly one "normal" membership and changes nothing else |
| ChatService.GroupChat | src/server/chatservice.cpp:308-338 | every other member is reached by its own path: sends and publishes are logged in member order, and each unreachable member's queue gains the message once per listing while every other queue is unchanged (the sender's included); presence, friends, groups and memberships never change |
| Sessions.RegisteredLoginRejected | src/server/chatservice.cpp:64-80 | while the presence invariant holds (no other process writes the user table), a login for an id already in the registry is refused with errno 1 or 2 and leaves the registry alone: at most one session per user |
| Sessions.SecondLoginRejected | src/server/chatservice.cpp:66-74 | after a successful login, a second login for the same user from any connection is refused with errno 2 and changes nothing but the reply |
| Sessions.DrainExactlyOnce | src/server/chatservice.cpp:97-103 | the first login returns the whole offline queue in order. After a logout, the next login carries no `offlinemsg` field |
| Sessions.CloseAfterLogin | src/server/chatservice.cpp:216-243 | when a fresh connection logs in and then drops, the disconnect finds the entry by connection alone. The registry returns to what it was, the user is offline, and the channel is unsubscribed |
| Sessions.ClientClosePreservesGood | src/server/chatservice.cpp:216-243 | abrupt disconnect keeps the store valid and the presence invariant, as far as this process's own transitions go |
| Sessions.AddedFriendListed | src/server/chatservice.cpp:106-119 | after `addFriend(u, f)` for an existing user f, u's next successful login lists f, with f's name and current state, among its friends |
| Sessions.RecipientReached | src/server/chatservice.cpp:314-337 | any member listed for a group message is reached by its own path: a send on its local connection, a publish when stored online, or the message as the newest entry of its offline queue |
| Sessions.JoinedMemberReached | src/server/chatservice.cpp:300-337 | after `addGroup(u, g)`, u is among the recipients of any other member's `groupChat` to g, and the message reaches u: on its local connection, through the relay when stored online, or as the newest entry of its offline queue |
| Sessions.CreatorReached | src/server/chatservice.cpp:284-297 | after an accepted `createGroup` by u, a group is stored under an id that was free before, and u is among the recipients of every other member's `groupChat` to it |
| Sessions.SentinelLoginAccepted | src/server/chatservice.cpp:63-64 | as written, login as id -1 with an empty password succeeds on any valid store. It registers and subscribes a non-existent user and breaks the presence invariant. The corrected login refuses it with errno 1 |
| Dispatch.BuildFirstWins | src/server/chatservice.cpp:17-26 | registering handlers with `emplace` keeps the earliest registration for each tag |
| Dispatch.RegisteredTagsResolve | src/server/chatservice.cpp:17-50 | with distinct tags, the table holds exactly the eight tags, and each resolves to its own bound handler |
| Dispatch.HandlerTable | src/server/chatservice.cpp:17-26 | the constructor's table holds exactly the registered tags, each bound to the kind of its earliest registration; the login tag always keeps the login handler |
| Dispatch.Run | src/server/chatservice.cpp:42-50 | invoking a resolved handler keeps the store valid and only appends effects; the default handler changes nothing |
| Dispatch.GetHandler | src/server/chatservice.cpp:35-50 | a tag in the table resolves to its bound handler, any other tag to the default one |
| Dispatch.Handle | src/server/chatservice.cpp:35-50 | a message with an unknown tag changes nothing: no state change, no reply, no relay traffic; a message with a registered tag is handled by exactly the handler bound to it |
| Dispatch.HandlePreservesGood | src/server/chatservice.cpp:58-338 | every handler of this process keeps the store valid and the presence invariant (each registry entry belongs to an existing user stored as online). This holds for login with the corrected credential test; the written test breaks it, as Sessions.SentinelLoginAccepted shows |

## Left out

- JSON encoding and decoding: messages are a record of the fields the
  handlers read, plus their serialized form as an opaque string. A missing or
  mistyped field, which throws in the JSON library, is not modelled.
- `errmsg` text in the replies: only errno is kept.
- Logging, including the default handler's error log and the singleton
  `instance()`.
- Interleaving of handlers: each handler is one atomic transition, while the
  source's `_connMutex` covers only the registry accesses (chatservice.cpp:79-81,
  199-205, 221-232, 251-259, 314-337, 343-352). In particular `login` reads the
  offline queue at :97 and deletes it at :102 without the lock; a concurrent
  `oneChat` or relay callback that appends to that queue in between loses its
  message. `Sessions.DrainExactlyOnce` holds only for atomic handlers.
- Storage writes by other server processes: they share the user, offline,
  friend and group tables, but only this process's handlers are transitions.
  The presence invariant (`Dispatch.HandlePreservesGood`,
  `Sessions.ClientClosePreservesGood`) and one session per user
  (`Sessions.RegisteredLoginRejected`) hold only under that assumption. For
  example, another process's `logout` for an id registered here sets the row
  offline (chatservice.cpp:211-212) while this registry keeps its entry; a
  later login for that id then succeeds here, and the `emplace` at :80 keeps
  the stale connection.
- MySQL and the relay client. Storage is abstract tables, and relay traffic is
  log entries. The listener thread is an external call to `RelayInbound`. A
  failed relay connection (the conditional at chatservice.cpp:28-31) is not
  modelled. Publish and subscribe results are ignored, as in the source.
- Storage failures other than the insert verdict. For example, a failed
  database connection makes `query` return the default user; the model treats
  that the same as a missing row.
- The TCP server and event loop, and the `Timestamp` argument.
- Storage row order is taken as insertion order, for both the offline queue
  and the listings.
- Integer width: ids are C++ `int`, read with `get<int>()` (chatservice.cpp:60,
  196, 248, 276, 286, 302, 310) and stored with `User::setId(int)`
  (user.hpp:19). The model's ids are unbounded integers and the storage
  counters `nextUserId` and `nextGroupId` never wrap, so narrowing of an id
  outside 32 bits is not modelled.
- Registry.FindByConn: when several ids share one connection (the same
  connection logged in under two ids), the source removes whichever entry its
  hash map visits first. The model leaves that choice unspecified, and so does
  not say which one is removed.
- Storage.FriendPeers: states which users are listed and with what data, but
  not their order or multiplicity.
- Storage.GroupsOf: states which groups are listed and with what data, but not
  their order or multiplicity.
- Storage.GroupMembers: states which members are listed, but not their order
  or multiplicity.

## Findings

| source | as written | input that shows it | evidently intended | confidence | as-written member | corrected member |
|---|---|---|---|---|---|---|
| src/server/chatservice.cpp:63-64 | credentials pass when `query(id).getId() == id` and the passwords match; `query` yields the default user (id -1, password "") when no row matches | login with id -1 and password "" on a store with no user -1 | only an existing user row passes; the login is refused with errno 1 | low; not executed; `UserModel::query` is not part of this model and is assumed to return the default user when no row matches | ChatService.LoginAsWritten, Sessions.SentinelLoginAccepted | ChatService.Login |

The rest of the model uses the corrected `ChatService.Login`.
`ChatService.LoginAsWritten` keeps the written test for the counterexample.
