/** The process-local connection registry: user id -> connection handle, at
    most one entry per id because it is a keyed map. */
module Registry {
  import opened Common

  /** A connection handle; handles are compared by identity only. */
  datatype Conn = Conn(handle: nat)

  type Conns = map<int, Conn>

  /** Login's registration: `emplace`, so an entry already present for `id`
      is kept and `c` is then not recorded. */
  function Register(m: Conns, id: int, c: Conn): (r: Conns)
    ensures id in r
    ensures id in m ==> r == m
    ensures id !in m ==> r == m[id := c]
  {
    Emplace(m, id, c)
  }

  /** Logout's removal: by key only, whatever connection is stored there;
      a no-op when `id` is absent. */
  function UnregisterId(m: Conns, id: int): (r: Conns)
    ensures r.Keys == m.Keys - {id}
    ensures forall k :: k in r ==> r[k] == m[k]
  {
    m - {id}
  }

  /** Reverse lookup of the id bound to connection `c`. When several ids share
      `c`, which one the hash map visits first is unspecified, and so is the
      one chosen here. */
  ghost function FindByConn(m: Conns, c: Conn): (r: Option<int>)
    ensures r.Some? ==> r.value in m && m[r.value] == c
    ensures r.None? <==> (forall k :: k in m ==> m[k] != c)
  {
    if exists k :: k in m && m[k] == c then
      var k :| k in m && m[k] == c; Some(k)
    else None
  }

  /** Abrupt-disconnect removal: drops the one entry found by `FindByConn`,
      reporting its id; the registry is untouched when `c` is unknown. */
  ghost function UnregisterConn(m: Conns, c: Conn): (r: (Conns, Option<int>))
    ensures r.1.None? ==> r.0 == m && forall k :: k in m ==> m[k] != c
    ensures r.1.Some? ==> r.1.value in m && m[r.1.value] == c
                          && r.0 == UnregisterId(m, r.1.value)
    ensures |r.0| <= |m|
  {
    match FindByConn(m, c)
    case None => (m, None)
    case Some(k) => (m - {k}, Some(k))
  }
}
