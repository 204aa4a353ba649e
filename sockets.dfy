/**
 * The socket event protocol of the presence server (backend/src/sockets/sockets.ts).
 *
 * Each inbound event is one sequential step over the server state: the
 * process-wide set of uids with a join in progress, the registry of
 * identities admitted at handshake, and the session store. A step returns
 * the new state and the outbound messages in the order they are sent.
 * The pure step functions are the specification; class SocketServer
 * performs the same steps in place and appends to its output log.
 *
 * Payload schemas are oracles: a payload that failed its schema arrives as
 * None. Database lookups, the proximity engine's answer, the spawn point and
 * the helper functions `formatEmailToName` and `removeExtraSpaces` are
 * inputs as well.
 */
module Sockets {
  import opened JsBuiltins
  import opened SessionStore
  import opened Handshake

  const MaxPlayers: nat := 30
  const MaxMessageLength: nat := 300
  const DefaultSkin := "009"

  const InvalidRequest := "Invalid request data."
  const AlreadyJoining := "Already joining a space."
  const SpaceFull := "Space is full. It's 30 players max."
  const SpaceNotFound := "Space not found."
  const RealmPrivate := "This realm is private right now. Come back later!"
  const ShareLinkChanged := "The share link has been changed."
  const LoggedInElsewhere := "You have logged in from another location."

  /** What a socket presented at handshake: its `uid` and `username` query parameters and its token. */
  datatype Connection = Connection(uid: string, username: string, token: Option<string>)

  datatype JoinRequest = JoinRequest(realmId: string, shareId: string)

  /** The `realms` row the join looks up: owner, share link, map and visibility. */
  datatype RealmRow = RealmRow(ownerId: string, shareId: string, mapData: MapData, onlyOwner: bool)

  datatype Position = Position(x: Coord, y: Coord)

  datatype TeleportRequest = TeleportRequest(roomIndex: int, x: Coord, y: Coord)

  /** One uid whose proximity group changed, with its new group id (None: ungrouped). */
  datatype ProximityChange = ProximityChange(uid: string, proximityId: Option<string>)

  datatype OutEvent =
    | JoinedRealm
    | FailedToJoinRoom(reason: string)
    | PlayerJoinedRoom(player: Player)
    | PlayerLeftRoom(uid: string)
    | PlayerMoved(uid: string, x: Coord, y: Coord)
    | PlayerTeleported(uid: string, x: Coord, y: Coord)
    | ProximityUpdate(proximityId: Option<string>)
    | PlayerChangedSkin(uid: string, skin: string)
    | ReceiveMessage(uid: string, message: string)

  /** An outbound message to one socket, or a request to kick a uid's current session. */
  datatype Emission = Send(socketId: string, event: OutEvent) | Kick(uid: string, reason: string)

  datatype ServerState = ServerState(joining: set<string>, users: map<string, User>, store: Store)

  datatype Step = Step(state: ServerState, out: seq<Emission>)

  /** No realm ever holds more than MaxPlayers players. */
  ghost predicate WithinCapacity(s: Store) {
    forall realm :: PlayerCount(s, realm) <= MaxPlayers
  }

  ghost predicate GoodState(st: ServerState) {
    SessionStore.Valid(st.store) && WithinCapacity(st.store)
  }

  // ------------------------------------------------------------- addressing

  /** Player `p` is in the same room of the same realm as `uid`. */
  predicate SameRoom(s: Store, uid: string, p: Player) {
    PlayerOf(s, uid).Some? && p.realmId == PlayerOf(s, uid).value.realmId && p.room == PlayerOf(s, uid).value.room
  }

  /** One message to every listed player whose socket is not `sender`, in list order. */
  function SendToOthers(ps: seq<Player>, sender: string, ev: OutEvent): (r: seq<Emission>)
    ensures |r| <= |ps|
  {
    if ps == [] then []
    else
      var last := ps[|ps| - 1];
      SendToOthers(ps[..|ps| - 1], sender, ev) + (if last.socketId == sender then [] else [Send(last.socketId, ev)])
  }

  /** The messages of SendToOthers go exactly to the listed sockets other than the sender's. */
  lemma {:induction false} SendToOthersAddressing(ps: seq<Player>, sender: string, ev: OutEvent)
    ensures forall e :: e in SendToOthers(ps, sender, ev) ==>
      e.Send? && e.event == ev && e.socketId != sender && exists p :: p in ps && p.socketId == e.socketId
    ensures forall p :: p in ps && p.socketId != sender ==> Send(p.socketId, ev) in SendToOthers(ps, sender, ev)
  {
    if ps != [] {
      var init := ps[..|ps| - 1];
      var last := ps[|ps| - 1];
      assert ps == init + [last];
      SendToOthersAddressing(init, sender, ev);
      forall e | e in SendToOthers(ps, sender, ev)
        ensures e.Send? && e.event == ev && e.socketId != sender && exists p :: p in ps && p.socketId == e.socketId
      {
        if e in SendToOthers(init, sender, ev) {
          var p :| p in init && p.socketId == e.socketId;
          assert p in ps;
        } else {
          assert last in ps;
        }
      }
    }
  }

  /**
   * `emit(event, data)`: every player in the sender's room except the
   * sender's own socket; nothing when the uid has no session.
   */
  function RoomBroadcast(s: Store, uid: string, sender: string, ev: OutEvent): (r: seq<Emission>)
    ensures PlayerOf(s, uid).None? ==> r == []
  {
    match PlayerOf(s, uid)
    case None => []
    case Some(me) => SendToOthers(PlayersInRoom(s, me.realmId, me.room), sender, ev)
  }

  /**
   * Room fan-out reaches every player in the uid's room except the sender's
   * own socket, and nobody else.
   */
  lemma RoomBroadcastAddressing(s: Store, uid: string, sender: string, ev: OutEvent)
    ensures forall e :: e in RoomBroadcast(s, uid, sender, ev) ==> e.Send? && e.event == ev && e.socketId != sender
    ensures forall e :: e in RoomBroadcast(s, uid, sender, ev) ==>
      exists p :: p in s.players && SameRoom(s, uid, p) && p.socketId == e.socketId
    ensures forall p :: p in s.players && SameRoom(s, uid, p) && p.socketId != sender ==>
      Send(p.socketId, ev) in RoomBroadcast(s, uid, sender, ev)
  {
    if PlayerOf(s, uid).Some? {
      var me := PlayerOf(s, uid).value;
      SendToOthersAddressing(PlayersInRoom(s, me.realmId, me.room), sender, ev);
      InRoomMembers(s.players, me.realmId, me.room);
    }
  }

  /** Room fan-out only ever sends the given event; it never kicks. */
  lemma RoomBroadcastSendsOnly(s: Store, uid: string, sender: string, ev: OutEvent)
    ensures forall e :: e in RoomBroadcast(s, uid, sender, ev) ==> e.Send? && e.event == ev
  {
    if PlayerOf(s, uid).Some? {
      var me := PlayerOf(s, uid).value;
      SendToOthersSendsOnly(PlayersInRoom(s, me.realmId, me.room), sender, ev);
    }
  }

  lemma {:induction false} SendToOthersSendsOnly(ps: seq<Player>, sender: string, ev: OutEvent)
    ensures forall e :: e in SendToOthers(ps, sender, ev) ==> e.Send? && e.event == ev
  {
    if ps != [] {
      SendToOthersSendsOnly(ps[..|ps| - 1], sender, ev);
    }
  }

  /** `emitToSocketIds(ids, event, data)`: one message per listed socket, in order. */
  function SendToSockets(ids: seq<string>, ev: OutEvent): (r: seq<Emission>)
    ensures |r| == |ids|
    ensures forall k :: 0 <= k < |ids| ==> r[k] == Send(ids[k], ev)
  {
    if ids == [] then [] else SendToSockets(ids[..|ids| - 1], ev) + [Send(ids[|ids| - 1], ev)]
  }

  /** Every uid the proximity engine reports is a player of the mover's realm. */
  predicate ChangesInRealm(s: Store, uid: string, changed: seq<ProximityChange>) {
    PlayerOf(s, uid).Some? ==>
      forall c :: c in changed ==>
        PlayerOf(s, c.uid).Some? && PlayerOf(s, c.uid).value.realmId == PlayerOf(s, uid).value.realmId
  }

  /** One `proximityUpdate` per changed uid, addressed to that uid's own socket only. */
  function ProximityNotices(s: Store, changed: seq<ProximityChange>): (r: seq<Emission>)
    requires forall c :: c in changed ==> PlayerOf(s, c.uid).Some?
    ensures |r| == |changed|
    ensures forall k :: 0 <= k < |changed| ==>
      r[k] == Send(PlayerOf(s, changed[k].uid).value.socketId, ProximityUpdate(changed[k].proximityId))
  {
    if changed == [] then []
    else
      var last := changed[|changed| - 1];
      assert last in changed;
      ProximityNotices(s, changed[..|changed| - 1])
        + [Send(PlayerOf(s, last.uid).value.socketId, ProximityUpdate(last.proximityId))]
  }

  lemma NoticesAreProximityUpdates(s: Store, changed: seq<ProximityChange>)
    requires forall c :: c in changed ==> PlayerOf(s, c.uid).Some?
    ensures forall e :: e in ProximityNotices(s, changed) ==> e.Send? && e.event.ProximityUpdate?
  {
    var r := ProximityNotices(s, changed);
    forall e | e in r ensures e.Send? && e.event.ProximityUpdate? {
      var k :| 0 <= k < |r| && r[k] == e;
    }
  }

  // ------------------------------------------------------------- event gate

  /**
   * `on(event, schema, callback)`: the callback runs only when the payload
   * passed its schema and the sender's uid has a session.
   */
  predicate Gate(s: Store, conn: Connection, payloadOk: bool) {
    payloadOk && PlayerOf(s, conn.uid).Some?
  }

  // ------------------------------------------------------------------- join

  datatype JoinVerdict = Admitted | Rejected(reason: string) | Aborted

  datatype JoinOutcome = JoinOutcome(verdict: JoinVerdict, state: ServerState, out: seq<Emission>)

  /** A live session for the realm already holds MaxPlayers players or more. */
  predicate Full(s: Store, realm: string) {
    realm in s.sessions && PlayerCount(s, realm) >= MaxPlayers
  }

  /**
   * Who may enter a realm: the owner always; anyone else only while the
   * realm is not owner-only and with the current share link. None admits;
   * Some gives the rejection reason.
   */
  function Admission(uid: string, row: RealmRow, shareId: string): (r: Option<string>)
    ensures r.None? <==> row.ownerId == uid || (!row.onlyOwner && row.shareId == shareId)
    ensures r.Some? ==> r.value == if row.onlyOwner then RealmPrivate else ShareLinkChanged
  {
    if row.ownerId == uid then None
    else if row.onlyOwner then Some(RealmPrivate)
    else if row.shareId == shareId then None
    else Some(ShareLinkChanged)
  }

  /**
   * Display name and skin of a joining player. A guest keeps its query name
   * (or "Guest") and the default skin; a token holder takes its profile skin
   * when it has one and a name derived from its registered e-mail. None when
   * the token holder has no registry entry: the handler then throws.
   */
  function JoinProfile(conn: Connection, users: map<string, User>, profileSkin: Option<string>,
                       formatEmailToName: string -> string): (r: Option<(string, string)>)
    ensures !TokenPresent(conn.token) ==> r == Some((OrElse(conn.username, GuestName), DefaultSkin))
    ensures TokenPresent(conn.token) ==> (r.Some? <==> conn.uid in users)
    ensures TokenPresent(conn.token) && r.Some? ==>
      && r.value.0 == formatEmailToName(users[conn.uid].Email())
      && r.value.1 == (if profileSkin.Some? && profileSkin.value != "" then profileSkin.value else DefaultSkin)
  {
    if !TokenPresent(conn.token) then Some((OrElse(conn.username, GuestName), DefaultSkin))
    else if conn.uid !in users then None
    else
      var skin := if profileSkin.Some? && profileSkin.value != "" then profileSkin.value else DefaultSkin;
      Some((formatEmailToName(users[conn.uid].Email()), skin))
  }

  function NewPlayer(sid: string, uid: string, realm: string, username: string, skin: string, spawn: Spawn): Player {
    Player(uid, sid, realm, username, skin, spawn.room, spawn.x, spawn.y)
  }

  /**
   * The admitted path (`join()`): create the session if absent, kick the
   * uid's current session if any, add the player, acknowledge to the joiner
   * and announce to the others in its room.
   */
  function Admit(s: Store, sid: string, uid: string, realm: string, mapData: MapData,
                 username: string, skin: string, spawn: Spawn): (r: (Store, seq<Emission>))
    requires SessionStore.Valid(s)
    ensures SessionStore.Valid(r.0)
    ensures r.0.sessions == CreateSession(s, realm, mapData).sessions
    ensures PlayerOf(r.0, uid) == Some(NewPlayer(sid, uid, realm, username, skin, spawn))
    ensures r.1 == (if PlayerOf(s, uid).Some? then [Kick(uid, LoggedInElsewhere)] else [])
                   + [Send(sid, JoinedRealm)]
                   + RoomBroadcast(r.0, uid, sid, PlayerJoinedRoom(NewPlayer(sid, uid, realm, username, skin, spawn)))
  {
    var s1 := CreateSession(s, realm, mapData);
    var kicked := PlayerOf(s1, uid).Some?;
    var s2 := if kicked then RemovePlayer(s1, uid) else s1;
    RemoveKeepsShape(s1, uid);
    AddKeepsShape(s2, sid, realm, uid, username, skin, spawn);
    var s3 := AddPlayer(s2, sid, realm, uid, username, skin, spawn);
    var p := NewPlayer(sid, uid, realm, username, skin, spawn);
    (s3, (if kicked then [Kick(uid, LoggedInElsewhere)] else []) + [Send(sid, JoinedRealm)]
         + RoomBroadcast(s3, uid, sid, PlayerJoinedRoom(p)))
  }

  /** Admission replaces the uid's row, if any, by the new one and leaves every other row. */
  lemma AdmitReplacesRow(s: Store, sid: string, uid: string, realm: string, mapData: MapData,
                         username: string, skin: string, spawn: Spawn)
    requires SessionStore.Valid(s)
    ensures forall p :: p in Admit(s, sid, uid, realm, mapData, username, skin, spawn).0.players <==>
      (p in s.players && p.uid != uid) || p == NewPlayer(sid, uid, realm, username, skin, spawn)
  {
    var s1 := CreateSession(s, realm, mapData);
    var s2 := if PlayerOf(s1, uid).Some? then RemovePlayer(s1, uid) else s1;
    if PlayerOf(s1, uid).Some? {
      assert forall p :: p in s2.players <==> p in s.players && p.uid != uid;
    } else {
      assert s2.players == s.players;
    }
    var q := NewPlayer(sid, uid, realm, username, skin, spawn);
    var r := Admit(s, sid, uid, realm, mapData, username, skin, spawn).0;
    assert r.players == s2.players + [q];
    forall p ensures p in r.players <==> p in s2.players || p == q {
      assert p in s2.players + [q] <==> p in s2.players || p in [q];
    }
  }

  /** Admission adds at most one player to the joined realm and none to any other. */
  lemma AdmitCounts(s: Store, sid: string, uid: string, realm: string, mapData: MapData,
                    username: string, skin: string, spawn: Spawn)
    requires SessionStore.Valid(s)
    ensures PlayerCount(Admit(s, sid, uid, realm, mapData, username, skin, spawn).0, realm) <= PlayerCount(s, realm) + 1
    ensures forall other :: other != realm ==>
      PlayerCount(Admit(s, sid, uid, realm, mapData, username, skin, spawn).0, other) <= PlayerCount(s, other)
  {
    var s1 := CreateSession(s, realm, mapData);
    var s2 := if PlayerOf(s1, uid).Some? then RemovePlayer(s1, uid) else s1;
    RemoveKeepsShape(s1, uid);
    AddKeepsShape(s2, sid, realm, uid, username, skin, spawn);
    assert forall other :: PlayerCount(s2, other) <= PlayerCount(s, other);
  }

  /** The uid's earlier session is kicked exactly when it had one. */
  lemma AdmitKicksEarlierSession(s: Store, sid: string, uid: string, realm: string, mapData: MapData,
                                 username: string, skin: string, spawn: Spawn)
    requires SessionStore.Valid(s)
    ensures PlayerOf(s, uid).Some? <==> Kick(uid, LoggedInElsewhere) in Admit(s, sid, uid, realm, mapData, username, skin, spawn).1
  {
    var s1 := CreateSession(s, realm, mapData);
    assert PlayerOf(s1, uid) == PlayerOf(s, uid);
    var r := Admit(s, sid, uid, realm, mapData, username, skin, spawn);
    var p := NewPlayer(sid, uid, realm, username, skin, spawn);
    RoomBroadcastSendsOnly(r.0, uid, sid, PlayerJoinedRoom(p));
    var kick := if PlayerOf(s, uid).Some? then [Kick(uid, LoggedInElsewhere)] else [];
    var rb := RoomBroadcast(r.0, uid, sid, PlayerJoinedRoom(p));
    assert r.1 == kick + [Send(sid, JoinedRealm)] + rb;
    assert Kick(uid, LoggedInElsewhere) !in rb;
    assert Kick(uid, LoggedInElsewhere) in kick <==> PlayerOf(s, uid).Some?;
  }

  /** The "already joining" notice: sent, but it does not stop the join. */
  function DuplicateNotice(joining: set<string>, sid: string, uid: string): seq<Emission> {
    if uid in joining then [Send(sid, FailedToJoinRoom(AlreadyJoining))] else []
  }

  /** `rejectJoin(reason)`: the reason goes to the joiner and its in-progress flag is cleared. */
  function Reject(st: ServerState, sid: string, uid: string, reason: string): JoinOutcome {
    JoinOutcome(Rejected(reason), st.(joining := st.joining - {uid}), [Send(sid, FailedToJoinRoom(reason))])
  }

  /**
   * The part of `joinRealm` after the joiner's in-progress flag is set: the
   * capacity of a live session, the realm lookup, the joiner's profile and
   * the admission rule, in that order.
   */
  function Proceed(st: ServerState, sid: string, conn: Connection, req: JoinRequest,
                   row: Option<RealmRow>, profileSkin: Option<string>, spawn: Spawn,
                   formatEmailToName: string -> string): (r: JoinOutcome)
    requires SessionStore.Valid(st.store)
    ensures r.state.users == st.users
    ensures !r.verdict.Admitted? ==> r.state.store == st.store
  {
    var uid := conn.uid;
    if Full(st.store, req.realmId) then Reject(st, sid, uid, SpaceFull)
    else if row.None? then Reject(st, sid, uid, SpaceNotFound)
    else match JoinProfile(conn, st.users, profileSkin, formatEmailToName)
      case None => JoinOutcome(Aborted, st, [])
      case Some(profile) => Decide(st, sid, uid, req, row.value, profile.0, profile.1, spawn)
  }

  /** The admission rule applied to a joiner whose name and skin are resolved. */
  function Decide(st: ServerState, sid: string, uid: string, req: JoinRequest, row: RealmRow,
                  username: string, skin: string, spawn: Spawn): (r: JoinOutcome)
    requires SessionStore.Valid(st.store)
    ensures r.verdict.Admitted? <==> Admission(uid, row, req.shareId).None?
    ensures !r.verdict.Admitted? ==> r == Reject(st, sid, uid, Admission(uid, row, req.shareId).value)
  {
    match Admission(uid, row, req.shareId)
    case Some(reason) => Reject(st, sid, uid, reason)
    case None =>
      var a := Admit(st.store, sid, uid, req.realmId, row.mapData, username, skin, spawn);
      JoinOutcome(Admitted, st.(joining := st.joining - {uid}, store := a.0), a.1)
  }

  /**
   * `joinRealm`: checks, in order, the payload, the capacity of a live
   * session, the realm lookup, the joiner's profile and the admission rule.
   * Every rejection tells the joiner why and clears its uid from the
   * in-progress set; a duplicate join is announced but goes on.
   */
  function JoinStep(st: ServerState, sid: string, conn: Connection, req: Option<JoinRequest>,
                    row: Option<RealmRow>, profileSkin: Option<string>, spawn: Spawn,
                    formatEmailToName: string -> string): (r: JoinOutcome)
    requires SessionStore.Valid(st.store)
    // the order of the checks
    ensures req.None? ==> r.verdict == Rejected(InvalidRequest)
    ensures req.Some? && Full(st.store, req.value.realmId) ==> r.verdict == Rejected(SpaceFull)
    ensures req.Some? && !Full(st.store, req.value.realmId) && row.None? ==> r.verdict == Rejected(SpaceNotFound)
    ensures req.Some? && !Full(st.store, req.value.realmId) && row.Some? ==>
      (r.verdict.Aborted? <==> JoinProfile(conn, st.users, profileSkin, formatEmailToName).None?)
    ensures req.Some? && !Full(st.store, req.value.realmId) && row.Some?
            && JoinProfile(conn, st.users, profileSkin, formatEmailToName).Some? ==>
      r.verdict == match Admission(conn.uid, row.value, req.value.shareId)
                   case None => Admitted
                   case Some(reason) => Rejected(reason)
    // the in-progress guard
    ensures r.verdict.Aborted? ==> r.state.joining == st.joining + {conn.uid}
    ensures !r.verdict.Aborted? ==> r.state.joining == st.joining - {conn.uid}
    ensures r.state.users == st.users
    // what each verdict does
    ensures !r.verdict.Admitted? ==> r.state.store == st.store
    ensures r.verdict.Aborted? ==> r.out == DuplicateNotice(st.joining, sid, conn.uid)
    ensures req.None? ==> r.out == [Send(sid, FailedToJoinRoom(InvalidRequest))]
    ensures req.Some? && r.verdict.Rejected? ==>
      r.out == DuplicateNotice(st.joining, sid, conn.uid) + [Send(sid, FailedToJoinRoom(r.verdict.reason))]
    ensures r.verdict.Admitted? ==>
      var profile := JoinProfile(conn, st.users, profileSkin, formatEmailToName).value;
      var a := Admit(st.store, sid, conn.uid, req.value.realmId, row.value.mapData, profile.0, profile.1, spawn);
      r.state.store == a.0 && r.out == DuplicateNotice(st.joining, sid, conn.uid) + a.1
  {
    var uid := conn.uid;
    if req.None? then Reject(st, sid, uid, InvalidRequest)
    else
      var o := Proceed(st.(joining := st.joining + {uid}), sid, conn, req.value, row, profileSkin, spawn, formatEmailToName);
      assert st.joining + {uid} - {uid} == st.joining - {uid};
      o.(out := DuplicateNotice(st.joining, sid, uid) + o.out)
  }

  /**
   * A join never pushes a realm past MaxPlayers: the capacity check runs
   * before the player is added, and kicking the uid's earlier session only
   * lowers counts.
   */
  lemma JoinKeepsCapacity(st: ServerState, sid: string, conn: Connection, req: Option<JoinRequest>,
                          row: Option<RealmRow>, profileSkin: Option<string>, spawn: Spawn,
                          formatEmailToName: string -> string)
    requires GoodState(st)
    ensures GoodState(JoinStep(st, sid, conn, req, row, profileSkin, spawn, formatEmailToName).state)
  {
    var r := JoinStep(st, sid, conn, req, row, profileSkin, spawn, formatEmailToName);
    if r.verdict.Admitted? {
      var realm := req.value.realmId;
      if realm !in st.store.sessions {
        NoSessionNoPlayers(st.store, realm);
      }
      assert PlayerCount(st.store, realm) < MaxPlayers;
      var profile := JoinProfile(conn, st.users, profileSkin, formatEmailToName).value;
      var a := Admit(st.store, sid, conn.uid, realm, row.value.mapData, profile.0, profile.1, spawn);
      assert r.state.store == a.0;
      AdmitCounts(st.store, sid, conn.uid, realm, row.value.mapData, profile.0, profile.1, spawn);
      assert WithinCapacity(a.0);
    }
  }

  /** A rejected join leaves the store as it was and clears the joiner's in-progress flag. */
  lemma RejectedJoinChangesNoSession(st: ServerState, sid: string, conn: Connection, req: Option<JoinRequest>,
                                     row: Option<RealmRow>, profileSkin: Option<string>, spawn: Spawn,
                                     formatEmailToName: string -> string)
    requires SessionStore.Valid(st.store)
    requires JoinStep(st, sid, conn, req, row, profileSkin, spawn, formatEmailToName).verdict.Rejected?
    ensures JoinStep(st, sid, conn, req, row, profileSkin, spawn, formatEmailToName).state
         == st.(joining := st.joining - {conn.uid})
    ensures Send(sid, FailedToJoinRoom(JoinStep(st, sid, conn, req, row, profileSkin, spawn, formatEmailToName).verdict.reason))
         in JoinStep(st, sid, conn, req, row, profileSkin, spawn, formatEmailToName).out
  {
  }

  /**
   * After an admitted join the uid has exactly one session, the new one:
   * any earlier session of the uid was kicked first.
   */
  lemma AdmittedJoinLeavesOneSession(st: ServerState, sid: string, conn: Connection, req: Option<JoinRequest>,
                                     row: Option<RealmRow>, profileSkin: Option<string>, spawn: Spawn,
                                     formatEmailToName: string -> string)
    requires SessionStore.Valid(st.store)
    requires JoinStep(st, sid, conn, req, row, profileSkin, spawn, formatEmailToName).verdict.Admitted?
    ensures var s := JoinStep(st, sid, conn, req, row, profileSkin, spawn, formatEmailToName).state.store;
      PlayerSession(s, conn.uid) == Some(req.value.realmId)
      && PlayerOf(s, conn.uid).value.socketId == sid
      && forall p :: p in s.players && p.uid == conn.uid ==> p == PlayerOf(s, conn.uid).value
    ensures PlayerOf(st.store, conn.uid).Some? <==>
      Kick(conn.uid, LoggedInElsewhere) in JoinStep(st, sid, conn, req, row, profileSkin, spawn, formatEmailToName).out
  {
    var r := JoinStep(st, sid, conn, req, row, profileSkin, spawn, formatEmailToName);
    var s := r.state.store;
    forall p | p in s.players && p.uid == conn.uid ensures p == PlayerOf(s, conn.uid).value {
      var i :| 0 <= i < |s.players| && s.players[i] == p;
      PlayerOfIsTheRow(s, i);
    }
    var profile := JoinProfile(conn, st.users, profileSkin, formatEmailToName).value;
    AdmitKicksEarlierSession(st.store, sid, conn.uid, req.value.realmId, row.value.mapData, profile.0, profile.1, spawn);
    assert Kick(conn.uid, LoggedInElsewhere) !in DuplicateNotice(st.joining, sid, conn.uid);
  }

  // ------------------------------------------------------------ disconnect

  /**
   * `disconnect`: the room's sockets are read before the logout; departure
   * is announced to them and the identity released only when the logout
   * removed a player bound to this socket.
   */
  function DisconnectStep(st: ServerState, sid: string, conn: Connection, payloadOk: bool): (r: Step)
    ensures !Gate(st.store, conn, payloadOk) ==> r == Step(st, [])
    ensures Gate(st.store, conn, payloadOk) && !LogOutBySocketId(st.store, sid).0 ==> r == Step(st, [])
    ensures r.out != [] ==> exists p :: p in st.store.players && p.socketId == sid
    ensures Gate(st.store, conn, payloadOk) && LogOutBySocketId(st.store, sid).0 ==>
      var me := PlayerOf(st.store, conn.uid).value;
      && r.out == SendToSockets(SocketIdsInRoom(st.store, me.realmId, me.room), PlayerLeftRoom(conn.uid))
      && r.state == st.(store := LogOutBySocketId(st.store, sid).1, users := st.users - {conn.uid})
  {
    if !Gate(st.store, conn, payloadOk) then Step(st, [])
    else
      var me := PlayerOf(st.store, conn.uid).value;
      var socketIds := SocketIdsInRoom(st.store, me.realmId, me.room);
      var (success, store) := LogOutBySocketId(st.store, sid);
      if success then
        Step(st.(store := store, users := st.users - {conn.uid}), SendToSockets(socketIds, PlayerLeftRoom(conn.uid)))
      else Step(st.(store := store), [])
  }

  /**
   * A socket that has been logged out, or superseded by a newer session of
   * its uid, disconnects without effect: a repeated disconnect announces
   * nothing and changes nothing.
   */
  lemma DisconnectIsIdempotent(st: ServerState, sid: string, conn: Connection, first: bool, second: bool)
    ensures var once := DisconnectStep(st, sid, conn, first).state;
      DisconnectStep(once, sid, conn, second) == Step(once, []) || !first
  {
    if first && Gate(st.store, conn, first) {
      LogOutIsIdempotent(st.store, sid);
    }
  }

  // ------------------------------------------------------------ movement

  /**
   * `movePlayer`: the sender's new position goes to its room, and each
   * uid whose proximity group changed hears about it on its own socket.
   */
  function MoveStep(st: ServerState, sid: string, conn: Connection, payload: Option<Position>,
                    changed: seq<ProximityChange>): (r: Step)
    requires SessionStore.Valid(st.store) && ChangesInRealm(st.store, conn.uid, changed)
    ensures !Gate(st.store, conn, payload.Some?) ==> r == Step(st, [])
    ensures Gate(st.store, conn, payload.Some?) ==>
      var s := MovePlayer(st.store, conn.uid, payload.value.x, payload.value.y);
      && r.state == st.(store := s)
      && PlayerOf(s, conn.uid) == Some(PlayerOf(st.store, conn.uid).value.(x := payload.value.x, y := payload.value.y))
      && r.out == RoomBroadcast(s, conn.uid, sid, PlayerMoved(conn.uid, payload.value.x, payload.value.y))
                  + ProximityNotices(s, changed)
  {
    if !Gate(st.store, conn, payload.Some?) then Step(st, [])
    else
      var s := MovePlayer(st.store, conn.uid, payload.value.x, payload.value.y);
      MoveKeepsShape(st.store, conn.uid, payload.value.x, payload.value.y);
      Step(st.(store := s),
           RoomBroadcast(s, conn.uid, sid, PlayerMoved(conn.uid, payload.value.x, payload.value.y))
           + ProximityNotices(s, changed))
  }

  /** The uids the proximity engine reports all have a session. */
  predicate ChangesPresent(s: Store, changed: seq<ProximityChange>) {
    forall c :: c in changed ==> PlayerOf(s, c.uid).Some?
  }

  /**
   * A teleport to another room: a departure announced to the old room, the
   * room change, an arrival announced to the new room, proximity notices.
   */
  function RoomChange(s: Store, sid: string, uid: string, req: TeleportRequest,
                      changed: seq<ProximityChange>): (r: (Store, seq<Emission>))
    requires SessionStore.Valid(s) && PlayerOf(s, uid).Some? && ChangesPresent(s, changed)
    ensures r.0 == ChangeRoom(s, uid, req.roomIndex, req.x, req.y)
    ensures SameBindings(s, r.0)
    ensures PlayerOf(r.0, uid) == Some(PlayerOf(s, uid).value.(room := req.roomIndex, x := req.x, y := req.y))
    ensures r.1 == RoomBroadcast(s, uid, sid, PlayerLeftRoom(uid))
                   + RoomBroadcast(r.0, uid, sid, PlayerJoinedRoom(PlayerOf(r.0, uid).value))
                   + ProximityNotices(r.0, changed)
  {
    var leave := RoomBroadcast(s, uid, sid, PlayerLeftRoom(uid));
    var s1 := ChangeRoom(s, uid, req.roomIndex, req.x, req.y);
    ChangeRoomKeepsShape(s, uid, req.roomIndex, req.x, req.y);
    var arrive := RoomBroadcast(s1, uid, sid, PlayerJoinedRoom(PlayerOf(s1, uid).value));
    (s1, leave + arrive + ProximityNotices(s1, changed))
  }

  /** A teleport within the room: a move announced as a teleport, then proximity notices. */
  function InRoomTeleport(s: Store, sid: string, uid: string, req: TeleportRequest,
                          changed: seq<ProximityChange>): (r: (Store, seq<Emission>))
    requires SessionStore.Valid(s) && PlayerOf(s, uid).Some? && ChangesPresent(s, changed)
    ensures r.0 == MovePlayer(s, uid, req.x, req.y)
    ensures SameBindings(s, r.0)
    ensures PlayerOf(r.0, uid) == Some(PlayerOf(s, uid).value.(x := req.x, y := req.y))
    ensures r.1 == RoomBroadcast(r.0, uid, sid, PlayerTeleported(uid, req.x, req.y)) + ProximityNotices(r.0, changed)
    ensures forall e :: e in r.1 ==> e.Send? && !e.event.PlayerLeftRoom? && !e.event.PlayerJoinedRoom?
  {
    var s1 := MovePlayer(s, uid, req.x, req.y);
    MoveKeepsShape(s, uid, req.x, req.y);
    NoticesAreProximityUpdates(s1, changed);
    RoomBroadcastSendsOnly(s1, uid, sid, PlayerTeleported(uid, req.x, req.y));
    (s1, RoomBroadcast(s1, uid, sid, PlayerTeleported(uid, req.x, req.y)) + ProximityNotices(s1, changed))
  }

  /**
   * `teleport`: to another room, a departure to the old room, the room
   * change, an arrival to the new room; within the room, a move announced
   * as a teleport. Proximity notices follow in both cases.
   */
  function TeleportStep(st: ServerState, sid: string, conn: Connection, payload: Option<TeleportRequest>,
                        changed: seq<ProximityChange>): (r: Step)
    requires SessionStore.Valid(st.store) && ChangesInRealm(st.store, conn.uid, changed)
    ensures !Gate(st.store, conn, payload.Some?) ==> r == Step(st, [])
    ensures Gate(st.store, conn, payload.Some?) ==>
      var me := PlayerOf(st.store, conn.uid).value;
      var req := payload.value;
      && PlayerOf(r.state.store, conn.uid) == Some(me.(room := req.roomIndex, x := req.x, y := req.y))
      && r.state.joining == st.joining && r.state.users == st.users
      && SameBindings(st.store, r.state.store)
    ensures Gate(st.store, conn, payload.Some?) && PlayerOf(st.store, conn.uid).value.room == payload.value.roomIndex ==>
      (r.state.store, r.out) == InRoomTeleport(st.store, sid, conn.uid, payload.value, changed)
      && forall e :: e in r.out ==> e.Send? && !e.event.PlayerLeftRoom? && !e.event.PlayerJoinedRoom?
    ensures Gate(st.store, conn, payload.Some?) && PlayerOf(st.store, conn.uid).value.room != payload.value.roomIndex ==>
      (r.state.store, r.out) == RoomChange(st.store, sid, conn.uid, payload.value, changed)
  {
    if !Gate(st.store, conn, payload.Some?) then Step(st, [])
    else
      var me := PlayerOf(st.store, conn.uid).value;
      var m := if me.room != payload.value.roomIndex then RoomChange(st.store, sid, conn.uid, payload.value, changed)
               else InRoomTeleport(st.store, sid, conn.uid, payload.value, changed);
      Step(st.(store := m.0), m.1)
  }

  // ------------------------------------------------------------ skin, chat

  /** `changedSkin`: the sender's skin is replaced and announced to its room. */
  function SkinStep(st: ServerState, sid: string, conn: Connection, payload: Option<string>): (r: Step)
    requires SessionStore.Valid(st.store)
    ensures !Gate(st.store, conn, payload.Some?) ==> r == Step(st, [])
    ensures Gate(st.store, conn, payload.Some?) ==>
      && r.state == st.(store := SetSkin(st.store, conn.uid, payload.value))
      && PlayerOf(r.state.store, conn.uid) == Some(PlayerOf(st.store, conn.uid).value.(skin := payload.value))
      && r.out == RoomBroadcast(r.state.store, conn.uid, sid, PlayerChangedSkin(conn.uid, payload.value))
  {
    if !Gate(st.store, conn, payload.Some?) then Step(st, [])
    else
      var s := SetSkin(st.store, conn.uid, payload.value);
      SetSkinKeepsShape(st.store, conn.uid, payload.value);
      Step(st.(store := s), RoomBroadcast(s, conn.uid, sid, PlayerChangedSkin(conn.uid, payload.value)))
  }

  /** A chat message is delivered only when it fits in MaxMessageLength and is not blank. */
  predicate Deliverable(message: string) {
    |message| <= MaxMessageLength && Trim(message) != ""
  }

  /**
   * `sendMessage`: a deliverable message, normalised by `removeExtraSpaces`,
   * goes to the sender's room; anything else is dropped. No state changes.
   */
  function MessageStep(st: ServerState, sid: string, conn: Connection, payload: Option<string>,
                       removeExtraSpaces: string -> string): (r: Step)
    ensures r.state == st
    ensures r.out != [] ==> payload.Some? && |payload.value| <= MaxMessageLength && !IsBlank(payload.value)
    ensures Gate(st.store, conn, payload.Some?) && Deliverable(payload.value) ==>
      r.out == RoomBroadcast(st.store, conn.uid, sid, ReceiveMessage(conn.uid, removeExtraSpaces(payload.value)))
    ensures !Gate(st.store, conn, payload.Some?) || !Deliverable(payload.value) ==> r.out == []
  {
    if !Gate(st.store, conn, payload.Some?) || !Deliverable(payload.value) then Step(st, [])
    else
      TrimEmptyIffBlank(payload.value);
      Step(st, RoomBroadcast(st.store, conn.uid, sid, ReceiveMessage(conn.uid, removeExtraSpaces(payload.value))))
  }

  /** The handlers other than join keep the store valid and within capacity. */
  lemma DisconnectKeepsCapacity(st: ServerState, sid: string, conn: Connection, payloadOk: bool)
    requires GoodState(st)
    ensures GoodState(DisconnectStep(st, sid, conn, payloadOk).state)
  {
    LogOutKeepsShape(st.store, sid);
  }

  lemma MoveKeepsCapacity(st: ServerState, sid: string, conn: Connection, payload: Option<Position>,
                          changed: seq<ProximityChange>)
    requires GoodState(st) && ChangesInRealm(st.store, conn.uid, changed)
    ensures GoodState(MoveStep(st, sid, conn, payload, changed).state)
  {
    if Gate(st.store, conn, payload.Some?) {
      MoveKeepsShape(st.store, conn.uid, payload.value.x, payload.value.y);
    }
  }

  lemma TeleportKeepsCapacity(st: ServerState, sid: string, conn: Connection, payload: Option<TeleportRequest>,
                              changed: seq<ProximityChange>)
    requires GoodState(st) && ChangesInRealm(st.store, conn.uid, changed)
    ensures GoodState(TeleportStep(st, sid, conn, payload, changed).state)
  {
    if Gate(st.store, conn, payload.Some?) {
      var req := payload.value;
      ChangeRoomKeepsShape(st.store, conn.uid, req.roomIndex, req.x, req.y);
      MoveKeepsShape(st.store, conn.uid, req.x, req.y);
    }
  }

  lemma SkinKeepsCapacity(st: ServerState, sid: string, conn: Connection, payload: Option<string>)
    requires GoodState(st)
    ensures GoodState(SkinStep(st, sid, conn, payload).state)
  {
    if Gate(st.store, conn, payload.Some?) {
      SetSkinKeepsShape(st.store, conn.uid, payload.value);
    }
  }

  // ------------------------------------------------------------ the server

  /** The log of an admitted join: an optional kick, then the rest. */
  lemma AppendAfterKick(log: seq<Emission>, kicked: bool, k: Emission, b: seq<Emission>, c: seq<Emission>)
    ensures (if kicked then log + [k] else log) + b + c == log + ((if kicked then [k] else []) + b + c)
  {
    if !kicked {
      assert [] + b == b;
    }
  }

  /** Appending to the log piece by piece appends the concatenated pieces. */
  lemma AppendInTurn(log: seq<Emission>, a: seq<Emission>, b: seq<Emission>, c: seq<Emission>)
    ensures log + a + b == log + (a + b)
    ensures log + a + b + c == log + (a + b + c)
  {
  }

  /**
   * The running server: the in-progress set, the identity registry, the
   * handshake data of each connected socket, the session store and the log
   * of everything sent. Each method is one event handler.
   */
  class SocketServer {
    var joiningInProgress: set<string>
    var users: map<string, User>
    var connections: map<string, Connection>
    var store: Store
    var log: seq<Emission>

    ghost predicate Valid()
      reads this
    {
      GoodState(State())
    }

    function State(): ServerState
      reads this
    {
      ServerState(joiningInProgress, users, store)
    }

    constructor ()
      ensures Valid()
      ensures State() == ServerState({}, map[], EmptyStore())
      ensures connections == map[] && log == []
    {
      joiningInProgress := {};
      users := map[];
      connections := map[];
      store := EmptyStore();
      log := [];
    }

    /**
     * The connection guard: an accepted socket is remembered with its
     * handshake data and its identity is registered under its uid; a refused
     * one leaves no trace.
     */
    method Connect(socketId: string, authorization: Option<string>, uid: string, username: string,
                   allowGuests: Option<string>, verification: Verification) returns (r: Handshake)
      requires Valid()
      modifies this
      ensures Valid()
      ensures r == Authorize(BearerToken(authorization), uid, username, allowGuests, verification)
      ensures r.Accepted? ==>
        && users == old(users)[uid := r.user]
        && connections == old(connections)[socketId := Connection(uid, username, BearerToken(authorization))]
      ensures r.Refused? ==> users == old(users) && connections == old(connections)
      ensures joiningInProgress == old(joiningInProgress) && store == old(store) && log == old(log)
    {
      var token := BearerToken(authorization);
      r := Authorize(token, uid, username, allowGuests, verification);
      if r.Accepted? {
        users := users[uid := r.user];
        connections := connections[socketId := Connection(uid, username, token)];
      }
    }

    /** `emit`: appends a message for every other player in the uid's room. */
    method EmitToRoom(sender: string, uid: string, ev: OutEvent)
      modifies this`log
      ensures log == old(log) + RoomBroadcast(store, uid, sender, ev)
    {
      var me := PlayerOf(store, uid);
      if me.None? {
        return;
      }
      var players := PlayersInRoom(store, me.value.realmId, me.value.room);
      for i := 0 to |players|
        invariant log == old(log) + SendToOthers(players[..i], sender, ev)
      {
        assert players[..i + 1][..i] == players[..i];
        if players[i].socketId != sender {
          log := log + [Send(players[i].socketId, ev)];
        }
      }
      assert players[..|players|] == players;
    }

    /** `emitToSocketIds`: appends one message per listed socket. */
    method EmitToSocketIds(socketIds: seq<string>, ev: OutEvent)
      modifies this`log
      ensures log == old(log) + SendToSockets(socketIds, ev)
    {
      for i := 0 to |socketIds|
        invariant log == old(log) + SendToSockets(socketIds[..i], ev)
      {
        assert socketIds[..i + 1][..i] == socketIds[..i];
        log := log + [Send(socketIds[i], ev)];
      }
      assert socketIds[..|socketIds|] == socketIds;
    }

    /** The loop over the changed uids: a `proximityUpdate` to each one's socket. */
    method NotifyProximity(changed: seq<ProximityChange>)
      requires forall c :: c in changed ==> PlayerOf(store, c.uid).Some?
      modifies this`log
      ensures log == old(log) + ProximityNotices(store, changed)
    {
      for i := 0 to |changed|
        invariant log == old(log) + ProximityNotices(store, changed[..i])
      {
        assert changed[..i + 1][..i] == changed[..i];
        assert changed[i] in changed;
        var player := PlayerOf(store, changed[i].uid).value;
        log := log + [Send(player.socketId, ProximityUpdate(changed[i].proximityId))];
      }
      assert changed[..|changed|] == changed;
    }

    /** `rejectJoin`: the reason goes to the joiner and its in-progress flag is cleared. */
    method RejectJoin(socketId: string, uid: string, reason: string)
      modifies this`log, this`joiningInProgress
      ensures log == old(log) + [Send(socketId, FailedToJoinRoom(reason))]
      ensures joiningInProgress == old(joiningInProgress) - {uid}
    {
      log := log + [Send(socketId, FailedToJoinRoom(reason))];
      joiningInProgress := joiningInProgress - {uid};
    }

    /** `join()`: the admitted path of `joinRealm`. */
    method Join(socketId: string, uid: string, realm: string, mapData: MapData,
                username: string, skin: string, spawn: Spawn)
      requires SessionStore.Valid(store)
      modifies this`log, this`store, this`joiningInProgress
      ensures var a := Admit(old(store), socketId, uid, realm, mapData, username, skin, spawn);
        store == a.0 && log == old(log) + a.1
      ensures joiningInProgress == old(joiningInProgress) - {uid}
    {
      ghost var log0 := log;
      ghost var a := Admit(store, socketId, uid, realm, mapData, username, skin, spawn);
      ghost var s1 := CreateSession(store, realm, mapData);
      if realm !in store.sessions {
        store := CreateSession(store, realm, mapData);
      }
      assert store == s1;
      ghost var s2 := if PlayerOf(s1, uid).Some? then RemovePlayer(s1, uid) else s1;
      if PlayerSession(store, uid).Some? {
        log := log + [Kick(uid, LoggedInElsewhere)];
        store := RemovePlayer(store, uid);
      }
      assert store == s2;
      store := AddPlayer(store, socketId, realm, uid, username, skin, spawn);
      assert store == a.0;
      var player := PlayerOf(store, uid).value;
      log := log + [Send(socketId, JoinedRealm)];
      EmitToRoom(socketId, uid, PlayerJoinedRoom(player));
      AppendAfterKick(log0, PlayerOf(s1, uid).Some?, Kick(uid, LoggedInElsewhere), [Send(socketId, JoinedRealm)],
                      RoomBroadcast(store, uid, socketId, PlayerJoinedRoom(player)));
      joiningInProgress := joiningInProgress - {uid};
    }

    /** The in-progress guard: a second join of the uid is announced, then the uid is marked. */
    method MarkJoining(socketId: string, uid: string)
      modifies this`log, this`joiningInProgress
      ensures log == old(log) + DuplicateNotice(old(joiningInProgress), socketId, uid)
      ensures joiningInProgress == old(joiningInProgress) + {uid}
    {
      if uid in joiningInProgress {
        RejectJoin(socketId, uid, AlreadyJoining);
      } else {
        assert log == log + [];
      }
      joiningInProgress := joiningInProgress + {uid};
    }

    /** `joinRealm` once the joiner is marked as in progress. */
    method ProceedJoin(socketId: string, conn: Connection, req: JoinRequest, realm: Option<RealmRow>,
                       profileSkin: Option<string>, spawn: Spawn, formatEmailToName: string -> string)
      returns (verdict: JoinVerdict)
      requires SessionStore.Valid(store)
      modifies this`log, this`store, this`joiningInProgress
      ensures var o := Proceed(old(State()), socketId, conn, req, realm, profileSkin, spawn, formatEmailToName);
        verdict == o.verdict && State() == o.state && log == old(log) + o.out
    {
      var uid := conn.uid;
      if req.realmId in store.sessions && PlayerCount(store, req.realmId) >= MaxPlayers {
        RejectJoin(socketId, uid, SpaceFull);
        return Rejected(SpaceFull);
      }
      if realm.None? {
        RejectJoin(socketId, uid, SpaceNotFound);
        return Rejected(SpaceNotFound);
      }
      var profile := ResolveProfile(conn, profileSkin, formatEmailToName);
      if profile.None? {
        // `users.getUser(uid)!.user_metadata` throws: the handler stops here
        assert log == old(log) + [];
        return Aborted;
      }
      verdict := AdmitOrReject(socketId, uid, req, realm.value, profile.value.0, profile.value.1, spawn);
    }

    /** The joiner's name and skin; None where the handler throws. */
    method ResolveProfile(conn: Connection, profileSkin: Option<string>, formatEmailToName: string -> string)
      returns (profile: Option<(string, string)>)
      ensures profile == JoinProfile(conn, users, profileSkin, formatEmailToName)
    {
      var skin := DefaultSkin;
      var username := OrElse(conn.username, GuestName);
      if TokenPresent(conn.token) {
        if profileSkin.Some? && profileSkin.value != "" {
          skin := profileSkin.value;
        }
        if conn.uid !in users {
          return None;
        }
        username := formatEmailToName(users[conn.uid].Email());
      }
      return Some((username, skin));
    }

    /** The owner check, the owner-only check and the share link check, then `join()` or `rejectJoin`. */
    method AdmitOrReject(socketId: string, uid: string, req: JoinRequest, row: RealmRow,
                         username: string, skin: string, spawn: Spawn)
      returns (verdict: JoinVerdict)
      requires SessionStore.Valid(store)
      modifies this`log, this`store, this`joiningInProgress
      ensures var o := Decide(old(State()), socketId, uid, req, row, username, skin, spawn);
        verdict == o.verdict && State() == o.state && log == old(log) + o.out
    {
      ghost var st := State();
      ghost var a := Admit(store, socketId, uid, req.realmId, row.mapData, username, skin, spawn);
      ghost var admitted := JoinOutcome(Admitted, st.(joining := st.joining - {uid}, store := a.0), a.1);
      if row.ownerId == uid {
        assert Decide(st, socketId, uid, req, row, username, skin, spawn) == admitted;
        Join(socketId, uid, req.realmId, row.mapData, username, skin, spawn);
        return Admitted;
      }
      if row.onlyOwner {
        assert Decide(st, socketId, uid, req, row, username, skin, spawn) == Reject(st, socketId, uid, RealmPrivate);
        RejectJoin(socketId, uid, RealmPrivate);
        return Rejected(RealmPrivate);
      }
      if row.shareId == req.shareId {
        assert Decide(st, socketId, uid, req, row, username, skin, spawn) == admitted;
        Join(socketId, uid, req.realmId, row.mapData, username, skin, spawn);
        return Admitted;
      } else {
        assert Decide(st, socketId, uid, req, row, username, skin, spawn) == Reject(st, socketId, uid, ShareLinkChanged);
        RejectJoin(socketId, uid, ShareLinkChanged);
        return Rejected(ShareLinkChanged);
      }
    }

    /**
     * `joinRealm`. `request` is the payload if it passed its schema, `realm`
     * the `realms` row if the lookup found one, `profileSkin` the profile's
     * skin if any.
     */
    method JoinRealm(socketId: string, request: Option<JoinRequest>, realm: Option<RealmRow>,
                     profileSkin: Option<string>, spawn: Spawn, formatEmailToName: string -> string)
      returns (verdict: JoinVerdict)
      requires Valid() && socketId in connections
      modifies this`log, this`store, this`joiningInProgress
      ensures Valid()
      ensures var o := JoinStep(old(State()), socketId, old(connections[socketId]), request, realm, profileSkin,
                                spawn, formatEmailToName);
        verdict == o.verdict && State() == o.state && log == old(log) + o.out
      ensures connections == old(connections)
    {
      ghost var st := State();
      ghost var log0 := log;
      var conn := connections[socketId];
      JoinKeepsCapacity(st, socketId, conn, request, realm, profileSkin, spawn, formatEmailToName);
      if request.None? {
        RejectJoin(socketId, conn.uid, InvalidRequest);
        return Rejected(InvalidRequest);
      }
      MarkJoining(socketId, conn.uid);
      ghost var log1 := log;
      verdict := ProceedJoin(socketId, conn, request.value, realm, profileSkin, spawn, formatEmailToName);
      AppendInTurn(log0, DuplicateNotice(st.joining, socketId, conn.uid), log[|log1|..], []);
    }

    /** The `disconnect` handler. */
    method Disconnect(socketId: string, payloadOk: bool)
      requires Valid() && socketId in connections
      modifies this`log, this`store, this`users
      ensures Valid()
      ensures var o := DisconnectStep(old(State()), socketId, old(connections[socketId]), payloadOk);
        State() == o.state && log == old(log) + o.out
      ensures connections == old(connections)
    {
      ghost var st := State();
      var conn := connections[socketId];
      DisconnectKeepsCapacity(st, socketId, conn, payloadOk);
      ghost var o := DisconnectStep(st, socketId, conn, payloadOk);
      if !Gate(store, conn, payloadOk) {
        return;
      }
      var me := PlayerOf(store, conn.uid).value;
      var socketIds := SocketIdsInRoom(store, me.realmId, me.room);
      var result := LogOutBySocketId(store, socketId);
      store := result.1;
      if result.0 {
        EmitToSocketIds(socketIds, PlayerLeftRoom(conn.uid));
        users := users - {conn.uid};
      }
      assert State() == o.state;
    }

    /** The `movePlayer` handler; `changed` is the proximity engine's answer to the move. */
    method MovePlayerTo(socketId: string, payload: Option<Position>, changed: seq<ProximityChange>)
      requires Valid() && socketId in connections
      requires ChangesInRealm(store, connections[socketId].uid, changed)
      modifies this`log, this`store
      ensures Valid()
      ensures var o := MoveStep(old(State()), socketId, old(connections[socketId]), payload, changed);
        State() == o.state && log == old(log) + o.out
      ensures connections == old(connections)
    {
      var conn := connections[socketId];
      if !Gate(store, conn, payload.Some?) {
        return;
      }
      MoveAndAnnounce(socketId, conn.uid, payload.value, changed);
    }

    /** The body of `movePlayer` once the mover is known to have a session. */
    method MoveAndAnnounce(socketId: string, uid: string, data: Position, changed: seq<ProximityChange>)
      requires GoodState(State()) && PlayerOf(store, uid).Some? && ChangesPresent(store, changed)
      modifies this`log, this`store
      ensures GoodState(State())
      ensures store == MovePlayer(old(store), uid, data.x, data.y)
      ensures log == old(log) + (RoomBroadcast(store, uid, socketId, PlayerMoved(uid, data.x, data.y))
                                 + ProximityNotices(store, changed))
    {
      MoveKeepsShape(store, uid, data.x, data.y);
      store := MovePlayer(store, uid, data.x, data.y);
      ghost var log0 := log;
      EmitToRoom(socketId, uid, PlayerMoved(uid, data.x, data.y));
      NotifyProximity(changed);
      AppendInTurn(log0, RoomBroadcast(store, uid, socketId, PlayerMoved(uid, data.x, data.y)),
                   ProximityNotices(store, changed), []);
    }

    /** The `teleport` handler; `changed` is the proximity engine's answer. */
    method Teleport(socketId: string, payload: Option<TeleportRequest>, changed: seq<ProximityChange>)
      requires Valid() && socketId in connections
      requires ChangesInRealm(store, connections[socketId].uid, changed)
      modifies this`log, this`store
      ensures Valid()
      ensures var o := TeleportStep(old(State()), socketId, old(connections[socketId]), payload, changed);
        State() == o.state && log == old(log) + o.out
      ensures connections == old(connections)
    {
      ghost var st := State();
      var conn := connections[socketId];
      TeleportKeepsCapacity(st, socketId, conn, payload, changed);
      if !Gate(store, conn, payload.Some?) {
        return;
      }
      var player := PlayerOf(store, conn.uid).value;
      if player.room != payload.value.roomIndex {
        MoveToRoom(socketId, conn.uid, payload.value, changed);
      } else {
        TeleportWithinRoom(socketId, conn.uid, payload.value, changed);
      }
    }

    /** The branch of `teleport` that leaves for another room. */
    method MoveToRoom(socketId: string, uid: string, req: TeleportRequest, changed: seq<ProximityChange>)
      requires SessionStore.Valid(store) && PlayerOf(store, uid).Some? && ChangesPresent(store, changed)
      modifies this`log, this`store
      ensures var m := RoomChange(old(store), socketId, uid, req, changed);
        store == m.0 && log == old(log) + m.1
    {
      ghost var m := RoomChange(store, socketId, uid, req, changed);
      ghost var log0 := log;
      EmitToRoom(socketId, uid, PlayerLeftRoom(uid));
      ghost var leave := log[|log0|..];
      store := ChangeRoom(store, uid, req.roomIndex, req.x, req.y);
      var player := PlayerOf(store, uid).value;
      EmitToRoom(socketId, uid, PlayerJoinedRoom(player));
      NotifyProximity(changed);
      AppendInTurn(log0, leave, RoomBroadcast(store, uid, socketId, PlayerJoinedRoom(player)),
                   ProximityNotices(store, changed));
    }

    /** The branch of `teleport` that stays in the room. */
    method TeleportWithinRoom(socketId: string, uid: string, req: TeleportRequest, changed: seq<ProximityChange>)
      requires SessionStore.Valid(store) && PlayerOf(store, uid).Some? && ChangesPresent(store, changed)
      modifies this`log, this`store
      ensures var m := InRoomTeleport(old(store), socketId, uid, req, changed);
        store == m.0 && log == old(log) + m.1
    {
      ghost var m := InRoomTeleport(store, socketId, uid, req, changed);
      ghost var log0 := log;
      store := MovePlayer(store, uid, req.x, req.y);
      EmitToRoom(socketId, uid, PlayerTeleported(uid, req.x, req.y));
      NotifyProximity(changed);
      AppendInTurn(log0, RoomBroadcast(store, uid, socketId, PlayerTeleported(uid, req.x, req.y)),
                   ProximityNotices(store, changed), []);
    }

    /** The `changedSkin` handler. */
    method ChangedSkin(socketId: string, payload: Option<string>)
      requires Valid() && socketId in connections
      modifies this`log, this`store
      ensures Valid()
      ensures var o := SkinStep(old(State()), socketId, old(connections[socketId]), payload);
        State() == o.state && log == old(log) + o.out
      ensures connections == old(connections)
    {
      ghost var st := State();
      var conn := connections[socketId];
      var uid := conn.uid;
      if payload.None? || PlayerSession(store, uid).None? {
        return;
      }
      store := SetSkin(store, uid, payload.value);
      EmitToRoom(socketId, uid, PlayerChangedSkin(uid, payload.value));
      SkinKeepsCapacity(st, socketId, conn, payload);
    }

    /** The `sendMessage` handler. */
    method SendMessage(socketId: string, payload: Option<string>, removeExtraSpaces: string -> string)
      requires Valid() && socketId in connections
      modifies this`log
      ensures Valid()
      ensures var o := MessageStep(old(State()), socketId, old(connections[socketId]), payload, removeExtraSpaces);
        State() == o.state && log == old(log) + o.out
      ensures connections == old(connections)
    {
      ghost var st := State();
      var conn := connections[socketId];
      ghost var o := MessageStep(st, socketId, conn, payload, removeExtraSpaces);
      if payload.None? || PlayerSession(store, conn.uid).None? {
        assert o == Step(st, []);
        assert log == old(log) + [];
        return;
      }
      var data := payload.value;
      if !Deliverable(data) {
        assert o == Step(st, []);
        assert log == old(log) + [];
        return;
      }
      assert Deliverable(data);
      var message := removeExtraSpaces(data);
      EmitToRoom(socketId, conn.uid, ReceiveMessage(conn.uid, message));
    }
  }
}
