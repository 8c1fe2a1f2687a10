/** The `User` record that mirrors a row of the user table: id, name,
    password and presence state, with the constructor defaults and the
    per-field setters of the C++ class. Getters are the field selectors. */
module Users {

  const ONLINE: string := "online"
  const OFFLINE: string := "offline"

  /** The id a default-constructed user carries; disconnect cleanup uses it
      to tell "no user found" apart from a real id. */
  const NO_ID: int := -1

  datatype User = User(id: int, name: string, pwd: string, state: string)
  {
    /** `setId`: only the id changes. */
    function SetId(i: int): (r: User)
      ensures r.id == i
      ensures r.(id := id) == this
    {
      this.(id := i)
    }

    /** `setName`: only the name changes. */
    function SetName(n: string): (r: User)
      ensures r.name == n
      ensures r.(name := name) == this
    {
      this.(name := n)
    }

    /** `setPwd`: only the password changes. */
    function SetPwd(p: string): (r: User)
      ensures r.pwd == p
      ensures r.(pwd := pwd) == this
    {
      this.(pwd := p)
    }

    /** `setState`: only the state changes. */
    function SetState(s: string): (r: User)
      ensures r.state == s
      ensures r.(state := state) == this
    {
      this.(state := s)
    }
  }

  /** The constructor `User(id = -1, name = "", pwd = "", state = "offline")`:
      reading the fields back yields exactly the arguments given, and the
      defaults when they are omitted. */
  function NewUser(id: int := NO_ID, name: string := "", pwd: string := "",
                   state: string := OFFLINE): (u: User)
    ensures u.id == id && u.name == name && u.pwd == pwd && u.state == state
  {
    User(id, name, pwd, state)
  }

  /** A default-constructed user has the sentinel id, empty name and
      password, and is offline. */
  lemma DefaultUserFields()
    ensures NewUser().id == -1
    ensures NewUser().name == "" && NewUser().pwd == ""
    ensures NewUser().state == "offline"
  {
  }

  /** Setting a field and reading it back returns the new value, and setting
      two different fields commutes. */
  lemma SettersIndependent(u: User, i: int, n: string, p: string, s: string)
    ensures u.SetState(s).state == s && u.SetState(s).id == u.id
    ensures u.SetId(i).SetState(s) == u.SetState(s).SetId(i)
    ensures u.SetName(n).SetPwd(p) == u.SetPwd(p).SetName(n)
    ensures u.SetId(i).name == u.name && u.SetId(i).pwd == u.pwd && u.SetId(i).state == u.state
  {
  }
}
