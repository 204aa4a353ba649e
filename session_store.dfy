/**
 * The session manager the socket handlers call (`../session`), seen only
 * through the operations the handlers use. The store is a value: the live
 * sessions (realm id to the realm's map data) and every joined player in
 * join order. Each player row carries the realm it is in, so "which realm
 * is this uid in" is a lookup and a uid can have at most one row.
 *
 * How the store keeps rooms, spawns players or groups them by proximity is
 * not visible to the handlers; the spawn point is an input and the
 * proximity engine's answers are inputs of the handlers that need them.
 */
module SessionStore {
  import opened JsBuiltins

  type Coord = real

  /** A realm's map as its JSON text. */
  type MapData = string

  datatype Player = Player(
    uid: string,
    socketId: string,
    realmId: string,
    username: string,
    skin: string,
    room: int,
    x: Coord,
    y: Coord)

  /** Where a new player is placed; derived by the store from the map data. */
  datatype Spawn = Spawn(room: int, x: Coord, y: Coord)

  datatype Store = Store(sessions: map<string, MapData>, players: seq<Player>)

  function EmptyStore(): (s: Store)
    ensures s.sessions == map[] && s.players == []
  {
    Store(map[], [])
  }

  ghost predicate UniqueUids(ps: seq<Player>) {
    forall i, j :: 0 <= i < j < |ps| ==> ps[i].uid != ps[j].uid
  }

  /** One row per uid, and every row belongs to a live session. */
  ghost predicate Valid(s: Store) {
    && UniqueUids(s.players)
    && forall i :: 0 <= i < |s.players| ==> s.players[i].realmId in s.sessions
  }

  // ---------------------------------------------------------------- lookups

  function Find(ps: seq<Player>, uid: string): (r: Option<nat>)
    ensures r.Some? ==> r.value < |ps| && ps[r.value].uid == uid
    ensures r.None? ==> forall i :: 0 <= i < |ps| ==> ps[i].uid != uid
  {
    if ps == [] then None
    else if ps[|ps| - 1].uid == uid then Some(|ps| - 1)
    else Find(ps[..|ps| - 1], uid)
  }

  /** `getPlayer(uid)`, answered from whichever session holds the uid. */
  function PlayerOf(s: Store, uid: string): (r: Option<Player>)
    ensures r.Some? ==> r.value in s.players && r.value.uid == uid
    ensures r.None? ==> forall p :: p in s.players ==> p.uid != uid
  {
    match Find(s.players, uid)
    case None => None
    case Some(i) => Some(s.players[i])
  }

  /** `getPlayerSession(uid)`: the id of the realm the uid is playing in. */
  function PlayerSession(s: Store, uid: string): (r: Option<string>)
    ensures r.Some? <==> PlayerOf(s, uid).Some?
    ensures r.Some? ==> r.value == PlayerOf(s, uid).value.realmId
    ensures Valid(s) && r.Some? ==> r.value in s.sessions
  {
    match PlayerOf(s, uid)
    case None => None
    case Some(p) => Some(p.realmId)
  }

  /** In a valid store the row of a uid is the only row with that uid. */
  lemma PlayerOfIsTheRow(s: Store, i: nat)
    requires Valid(s) && i < |s.players|
    ensures PlayerOf(s, s.players[i].uid) == Some(s.players[i])
  {
    var k := Find(s.players, s.players[i].uid).value;
    assert !(k < i) && !(i < k);
  }

  /** Players of one realm, in store order. */
  function InRealm(ps: seq<Player>, realm: string): (r: seq<Player>)
    ensures |r| <= |ps|
  {
    if ps == [] then []
    else
      var last := ps[|ps| - 1];
      InRealm(ps[..|ps| - 1], realm) + (if last.realmId == realm then [last] else [])
  }

  /** `getPlayerCount()` of a realm's session. */
  function PlayerCount(s: Store, realm: string): nat {
    |InRealm(s.players, realm)|
  }

  /** Players of one room of one realm, in store order (`getPlayersInRoom`). */
  function InRoom(ps: seq<Player>, realm: string, room: int): (r: seq<Player>)
    ensures |r| <= |ps|
  {
    if ps == [] then []
    else
      var last := ps[|ps| - 1];
      InRoom(ps[..|ps| - 1], realm, room) + (if last.realmId == realm && last.room == room then [last] else [])
  }

  function PlayersInRoom(s: Store, realm: string, room: int): seq<Player> {
    InRoom(s.players, realm, room)
  }

  function SocketIds(ps: seq<Player>): (r: seq<string>)
    ensures |r| == |ps|
    ensures forall k :: 0 <= k < |ps| ==> r[k] == ps[k].socketId
  {
    if ps == [] then [] else SocketIds(ps[..|ps| - 1]) + [ps[|ps| - 1].socketId]
  }

  /** `getSocketIdsInRoom(realm, room)`. */
  function SocketIdsInRoom(s: Store, realm: string, room: int): seq<string> {
    SocketIds(PlayersInRoom(s, realm, room))
  }

  function HasSocket(ps: seq<Player>, socketId: string): (r: bool)
    ensures r <==> exists p :: p in ps && p.socketId == socketId
  {
    if ps == [] then false
    else
      assert ps == ps[..|ps| - 1] + [ps[|ps| - 1]];
      ps[|ps| - 1].socketId == socketId || HasSocket(ps[..|ps| - 1], socketId)
  }

  /** The rows a removal targets: those of a uid (a kick) or those bound to a socket (a logout). */
  datatype RowKey = ByUid(uid: string) | BySocket(socketId: string)

  predicate Matches(p: Player, key: RowKey) {
    match key
    case ByUid(uid) => p.uid == uid
    case BySocket(socketId) => p.socketId == socketId
  }

  /** The rows that the key does not match, in order. */
  function Without(ps: seq<Player>, key: RowKey): (r: seq<Player>)
    ensures |r| <= |ps|
  {
    if ps == [] then []
    else
      var last := ps[|ps| - 1];
      Without(ps[..|ps| - 1], key) + (if !Matches(last, key) then [last] else [])
  }

  /** The filters keep exactly the rows that satisfy their condition. */
  lemma {:induction false} InRealmMembers(ps: seq<Player>, realm: string)
    ensures forall p :: p in InRealm(ps, realm) <==> p in ps && p.realmId == realm
  {
    if ps != [] {
      assert ps == ps[..|ps| - 1] + [ps[|ps| - 1]];
      InRealmMembers(ps[..|ps| - 1], realm);
    }
  }

  lemma {:induction false} InRoomMembers(ps: seq<Player>, realm: string, room: int)
    ensures forall p :: p in InRoom(ps, realm, room) <==> p in ps && p.realmId == realm && p.room == room
  {
    if ps != [] {
      assert ps == ps[..|ps| - 1] + [ps[|ps| - 1]];
      InRoomMembers(ps[..|ps| - 1], realm, room);
    }
  }

  lemma {:induction false} WithoutMembers(ps: seq<Player>, key: RowKey)
    ensures forall p :: p in Without(ps, key) <==> p in ps && !Matches(p, key)
  {
    if ps != [] {
      assert ps == ps[..|ps| - 1] + [ps[|ps| - 1]];
      WithoutMembers(ps[..|ps| - 1], key);
    }
  }

  // -------------------------------------------------------------- mutations

  /** `createSession(realm, mapData)`: a no-op when the realm already has a session. */
  function CreateSession(s: Store, realm: string, mapData: MapData): (r: Store)
    ensures r.players == s.players
    ensures r.sessions.Keys == s.sessions.Keys + {realm}
    ensures realm in s.sessions ==> r == s
    ensures realm !in s.sessions ==> r.sessions[realm] == mapData
    ensures forall k :: k in s.sessions ==> r.sessions[k] == s.sessions[k]
  {
    if realm in s.sessions then s else s.(sessions := s.sessions[realm := mapData])
  }

  /** Removal of a uid's row, as done when the uid is kicked. */
  function RemovePlayer(s: Store, uid: string): (r: Store)
    ensures r.sessions == s.sessions
    ensures PlayerOf(r, uid).None?
    ensures forall p :: p in r.players <==> p in s.players && p.uid != uid
  {
    WithoutMembers(s.players, ByUid(uid));
    s.(players := Without(s.players, ByUid(uid)))
  }

  /**
   * `addPlayerToSession(socketId, realm, uid, username, skin)`: the new row
   * goes after every existing one; nothing happens when the realm has no
   * session. The caller has already removed any earlier row of the uid.
   */
  function AddPlayer(s: Store, socketId: string, realm: string, uid: string, username: string,
                     skin: string, spawn: Spawn): (r: Store)
    requires PlayerOf(s, uid).None?
    ensures r.sessions == s.sessions
    ensures realm !in s.sessions ==> r == s
    ensures realm in s.sessions ==>
      r.players == s.players + [Player(uid, socketId, realm, username, skin, spawn.room, spawn.x, spawn.y)]
  {
    if realm !in s.sessions then s
    else s.(players := s.players + [Player(uid, socketId, realm, username, skin, spawn.room, spawn.x, spawn.y)])
  }

  /**
   * `logOutBySocketId(socketId)`: removes the row bound to that socket and
   * reports whether there was one.
   */
  function LogOutBySocketId(s: Store, socketId: string): (res: (bool, Store))
    ensures res.0 <==> exists p :: p in s.players && p.socketId == socketId
    ensures res.1.sessions == s.sessions
    ensures forall p :: p in res.1.players <==> p in s.players && p.socketId != socketId
    ensures !res.0 ==> res.1 == s
  {
    WithoutMembers(s.players, BySocket(socketId));
    if HasSocket(s.players, socketId) then (true, s.(players := Without(s.players, BySocket(socketId))))
    else (false, s)
  }

  /** `movePlayer(uid, x, y)` as far as the row is concerned: new coordinates, same room. */
  function MovePlayer(s: Store, uid: string, x: Coord, y: Coord): (r: Store)
    ensures r.sessions == s.sessions && |r.players| == |s.players|
    ensures forall i :: 0 <= i < |s.players| ==>
      r.players[i] == if s.players[i].uid == uid && Find(s.players, uid) == Some(i)
                      then s.players[i].(x := x, y := y) else s.players[i]
  {
    match Find(s.players, uid)
    case None => s
    case Some(i) => s.(players := s.players[i := s.players[i].(x := x, y := y)])
  }

  /** `changeRoom(uid, room, x, y)` as far as the row is concerned. */
  function ChangeRoom(s: Store, uid: string, room: int, x: Coord, y: Coord): (r: Store)
    ensures r.sessions == s.sessions && |r.players| == |s.players|
    ensures forall i :: 0 <= i < |s.players| ==>
      r.players[i] == if s.players[i].uid == uid && Find(s.players, uid) == Some(i)
                      then s.players[i].(room := room, x := x, y := y) else s.players[i]
  {
    match Find(s.players, uid)
    case None => s
    case Some(i) => s.(players := s.players[i := s.players[i].(room := room, x := x, y := y)])
  }

  /** `player.skin = skin` on the uid's row. */
  function SetSkin(s: Store, uid: string, skin: string): (r: Store)
    ensures r.sessions == s.sessions && |r.players| == |s.players|
    ensures forall i :: 0 <= i < |s.players| ==>
      r.players[i] == if s.players[i].uid == uid && Find(s.players, uid) == Some(i)
                      then s.players[i].(skin := skin) else s.players[i]
  {
    match Find(s.players, uid)
    case None => s
    case Some(i) => s.(players := s.players[i := s.players[i].(skin := skin)])
  }

  // ----------------------------------------------------------------- lemmas

  /** Rows that agree position by position on uid, socket and realm. */
  ghost predicate SameRows(ps: seq<Player>, qs: seq<Player>) {
    && |ps| == |qs|
    && forall i :: 0 <= i < |ps| ==>
         ps[i].uid == qs[i].uid && ps[i].realmId == qs[i].realmId && ps[i].socketId == qs[i].socketId
  }

  lemma {:induction false} SameRowsSameCount(ps: seq<Player>, qs: seq<Player>, realm: string)
    requires SameRows(ps, qs)
    ensures |InRealm(ps, realm)| == |InRealm(qs, realm)|
  {
    if ps != [] {
      SameRowsSameCount(ps[..|ps| - 1], qs[..|qs| - 1], realm);
    }
  }

  lemma {:induction false} SameRowsSameFind(ps: seq<Player>, qs: seq<Player>, uid: string)
    requires SameRows(ps, qs)
    ensures Find(ps, uid) == Find(qs, uid)
  {
    if ps != [] {
      SameRowsSameFind(ps[..|ps| - 1], qs[..|qs| - 1], uid);
    }
  }

  /** Every uid keeps its presence, realm and socket from `s` to `r`. */
  ghost predicate SameBindings(s: Store, r: Store) {
    && (forall u :: PlayerOf(r, u).Some? == PlayerOf(s, u).Some?)
    && (forall u :: PlayerOf(s, u).Some? ==>
          PlayerOf(r, u).value.realmId == PlayerOf(s, u).value.realmId
          && PlayerOf(r, u).value.socketId == PlayerOf(s, u).value.socketId)
  }

  /**
   * Updating a row in place (position, room or skin) keeps the store valid,
   * every realm's count, and which uid is bound to which realm and socket.
   */
  lemma InPlaceUpdateKeepsShape(s: Store, r: Store)
    requires Valid(s) && r.sessions == s.sessions && SameRows(s.players, r.players)
    ensures Valid(r)
    ensures forall realm :: PlayerCount(r, realm) == PlayerCount(s, realm)
    ensures SameBindings(s, r)
  {
    forall realm ensures PlayerCount(r, realm) == PlayerCount(s, realm) {
      SameRowsSameCount(s.players, r.players, realm);
    }
    forall u ensures Find(r.players, u) == Find(s.players, u) {
      SameRowsSameFind(s.players, r.players, u);
    }
  }

  lemma MoveKeepsShape(s: Store, uid: string, x: Coord, y: Coord)
    requires Valid(s)
    ensures Valid(MovePlayer(s, uid, x, y))
    ensures forall realm :: PlayerCount(MovePlayer(s, uid, x, y), realm) == PlayerCount(s, realm)
    ensures SameBindings(s, MovePlayer(s, uid, x, y))
    ensures PlayerOf(s, uid).Some? ==>
      PlayerOf(MovePlayer(s, uid, x, y), uid) == Some(PlayerOf(s, uid).value.(x := x, y := y))
  {
    InPlaceUpdateKeepsShape(s, MovePlayer(s, uid, x, y));
    SameRowsSameFind(s.players, MovePlayer(s, uid, x, y).players, uid);
  }

  lemma ChangeRoomKeepsShape(s: Store, uid: string, room: int, x: Coord, y: Coord)
    requires Valid(s)
    ensures Valid(ChangeRoom(s, uid, room, x, y))
    ensures forall realm :: PlayerCount(ChangeRoom(s, uid, room, x, y), realm) == PlayerCount(s, realm)
    ensures SameBindings(s, ChangeRoom(s, uid, room, x, y))
    ensures PlayerOf(s, uid).Some? ==>
      PlayerOf(ChangeRoom(s, uid, room, x, y), uid) == Some(PlayerOf(s, uid).value.(room := room, x := x, y := y))
  {
    InPlaceUpdateKeepsShape(s, ChangeRoom(s, uid, room, x, y));
    SameRowsSameFind(s.players, ChangeRoom(s, uid, room, x, y).players, uid);
  }

  lemma SetSkinKeepsShape(s: Store, uid: string, skin: string)
    requires Valid(s)
    ensures Valid(SetSkin(s, uid, skin))
    ensures forall realm :: PlayerCount(SetSkin(s, uid, skin), realm) == PlayerCount(s, realm)
    ensures SameBindings(s, SetSkin(s, uid, skin))
    ensures PlayerOf(s, uid).Some? ==>
      PlayerOf(SetSkin(s, uid, skin), uid) == Some(PlayerOf(s, uid).value.(skin := skin))
  {
    InPlaceUpdateKeepsShape(s, SetSkin(s, uid, skin));
    SameRowsSameFind(s.players, SetSkin(s, uid, skin).players, uid);
  }

  lemma {:induction false} WithoutCount(ps: seq<Player>, key: RowKey, realm: string)
    ensures |InRealm(Without(ps, key), realm)| <= |InRealm(ps, realm)|
  {
    if ps != [] {
      var init := ps[..|ps| - 1];
      WithoutCount(init, key, realm);
      var last := ps[|ps| - 1];
      var w := Without(init, key);
      if !Matches(last, key) {
        assert Without(ps, key) == w + [last];
        assert (w + [last])[..|w|] == w;
      } else {
        assert Without(ps, key) == w;
      }
    }
  }

  /** A sub-sequence (in order) of a sequence with unique uids has unique uids. */
  lemma {:induction false} FilterKeepsUnique(ps: seq<Player>, key: RowKey)
    requires UniqueUids(ps)
    ensures UniqueUids(Without(ps, key))
  {
    if ps != [] {
      var init := ps[..|ps| - 1];
      var last := ps[|ps| - 1];
      FilterKeepsUnique(init, key);
      WithoutMembers(init, key);
      forall p | p in init ensures p.uid != last.uid {
        var i :| 0 <= i < |init| && init[i] == p;
      }
      var w := Without(init, key);
      if !Matches(last, key) {
        assert Without(ps, key) == w + [last];
        forall i | 0 <= i < |w| ensures w[i].uid != last.uid {
          assert w[i] in w;
        }
      }
    }
  }

  /** Kicking a uid keeps the store valid and never raises a realm's count. */
  lemma RemoveKeepsShape(s: Store, uid: string)
    requires Valid(s)
    ensures Valid(RemovePlayer(s, uid))
    ensures forall realm :: PlayerCount(RemovePlayer(s, uid), realm) <= PlayerCount(s, realm)
  {
    var r := RemovePlayer(s, uid);
    FilterKeepsUnique(s.players, ByUid(uid));
    forall i | 0 <= i < |r.players| ensures r.players[i].realmId in r.sessions {
      assert r.players[i] in s.players;
    }
    forall realm ensures PlayerCount(r, realm) <= PlayerCount(s, realm) {
      WithoutCount(s.players, ByUid(uid), realm);
    }
  }

  /** Logging a socket out keeps the store valid and never raises a realm's count. */
  lemma LogOutKeepsShape(s: Store, socketId: string)
    requires Valid(s)
    ensures Valid(LogOutBySocketId(s, socketId).1)
    ensures forall realm :: PlayerCount(LogOutBySocketId(s, socketId).1, realm) <= PlayerCount(s, realm)
  {
    var r := LogOutBySocketId(s, socketId).1;
    if r != s {
      assert r.players == Without(s.players, BySocket(socketId));
      FilterKeepsUnique(s.players, BySocket(socketId));
      forall i | 0 <= i < |r.players| ensures r.players[i].realmId in r.sessions {
        assert r.players[i] in s.players;
      }
      forall realm ensures PlayerCount(r, realm) <= PlayerCount(s, realm) {
        WithoutCount(s.players, BySocket(socketId), realm);
      }
    }
  }

  /**
   * Once a socket has been logged out, logging it out again removes nothing:
   * a second disconnect of a superseded or kicked socket is a no-op.
   */
  lemma LogOutIsIdempotent(s: Store, socketId: string)
    ensures !LogOutBySocketId(LogOutBySocketId(s, socketId).1, socketId).0
    ensures LogOutBySocketId(LogOutBySocketId(s, socketId).1, socketId).1 == LogOutBySocketId(s, socketId).1
  {
  }

  /** A realm without a session has no players. */
  lemma NoSessionNoPlayers(s: Store, realm: string)
    requires Valid(s) && realm !in s.sessions
    ensures PlayerCount(s, realm) == 0
  {
    NoRowsOfRealm(s.players, realm);
  }

  lemma {:induction false} NoRowsOfRealm(ps: seq<Player>, realm: string)
    requires forall i :: 0 <= i < |ps| ==> ps[i].realmId != realm
    ensures InRealm(ps, realm) == []
  {
    if ps != [] {
      NoRowsOfRealm(ps[..|ps| - 1], realm);
    }
  }

  /**
   * Adding a fresh uid to a live session keeps the store valid, makes the
   * new row the uid's row and raises that realm's count by exactly one.
   */
  lemma AddKeepsShape(s: Store, socketId: string, realm: string, uid: string, username: string,
                      skin: string, spawn: Spawn)
    requires Valid(s) && PlayerOf(s, uid).None? && realm in s.sessions
    ensures Valid(AddPlayer(s, socketId, realm, uid, username, skin, spawn))
    ensures PlayerOf(AddPlayer(s, socketId, realm, uid, username, skin, spawn), uid)
         == Some(Player(uid, socketId, realm, username, skin, spawn.room, spawn.x, spawn.y))
    ensures PlayerCount(AddPlayer(s, socketId, realm, uid, username, skin, spawn), realm)
         == PlayerCount(s, realm) + 1
    ensures forall other :: other != realm ==>
      PlayerCount(AddPlayer(s, socketId, realm, uid, username, skin, spawn), other) == PlayerCount(s, other)
  {
    var r := AddPlayer(s, socketId, realm, uid, username, skin, spawn);
    assert r.players[..|s.players|] == s.players;
    forall i | 0 <= i < |s.players| ensures s.players[i].uid != uid {
      assert s.players[i] in s.players;
    }
  }
}
