/** The connection registry both gateways keep: for each identity key
    `<type>:<id>`, the set of ids of its open sockets. An identity with no
    open socket has no entry at all. */
module Registry {
  type Sockets = map<string, set<string>>

  /** No identity is mapped to an empty set. */
  predicate NoEmptySets(r: Sockets)
  {
    forall k :: k in r ==> r[k] != {}
  }

  /** The sockets registered under `key` (none when it has no entry). */
  function SocketsOf(r: Sockets, key: string): set<string>
  {
    if key in r then r[key] else {}
  }

  /** A verified connection: the set is created when absent and the socket id
      added to it. */
  function Register(r: Sockets, key: string, socket: string): (r': Sockets)
    ensures r'.Keys == r.Keys + {key}
    ensures r'[key] == SocketsOf(r, key) + {socket}
    ensures forall k :: k in r && k != key ==> r'[k] == r[k]
  {
    r[key := SocketsOf(r, key) + {socket}]
  }

  /** A disconnection: the socket id is removed and the entry deleted once its
      set is empty; an identity without an entry is left alone. */
  function Unregister(r: Sockets, key: string, socket: string): (r': Sockets)
    ensures r'.Keys == if SocketsOf(r, key) - {socket} == {} then r.Keys - {key} else r.Keys
    ensures key in r' ==> r'[key] == r[key] - {socket}
    ensures forall k :: k in r && k != key ==> r'[k] == r[k]
  {
    if key !in r then r
    else if r[key] - {socket} == {} then r - {key}
    else r[key := r[key] - {socket}]
  }

  lemma RegisterKeepsNoEmptySets(r: Sockets, key: string, socket: string)
    requires NoEmptySets(r)
    ensures NoEmptySets(Register(r, key, socket))
  {
  }

  lemma UnregisterKeepsNoEmptySets(r: Sockets, key: string, socket: string)
    requires NoEmptySets(r)
    ensures NoEmptySets(Unregister(r, key, socket))
  {
  }

  /** Registering a socket that is already registered changes nothing. */
  lemma RegisterTwice(r: Sockets, key: string, socket: string)
    requires socket in SocketsOf(r, key)
    ensures Register(r, key, socket) == r
  {
    assert Register(r, key, socket)[key] == r[key];
  }

  /** A connection followed by its disconnection restores the registry. */
  lemma RegisterThenUnregister(r: Sockets, key: string, socket: string)
    requires NoEmptySets(r)
    requires socket !in SocketsOf(r, key)
    ensures Unregister(Register(r, key, socket), key, socket) == r
  {
    var r2 := Unregister(Register(r, key, socket), key, socket);
    if key in r {
      assert r2[key] == r[key];
    }
    assert r2.Keys == r.Keys;
  }
}
