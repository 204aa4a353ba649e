# gather-clone presence core, modelled in Dafny

This project models the decision logic and the in-memory state machine of a
virtual-office presence server and its web front end:

- **Socket protocol** (`backend/src/sockets/sockets.ts`):
  - the handshake guard (`protectConnection`), with a guest path and a token path;
  - the `on` event gate, the room fan-out (`emit`) and the per-socket fan-out (`emitToSocketIds`);
  - the handlers `joinRealm`, `disconnect`, `movePlayer`, `teleport`, `changedSkin` and `sendMessage`;
  - the process-wide `joiningInProgress` set.

  Each handler has a pure step function (`JoinStep`, `DisconnectStep`, `MoveStep`, `TeleportStep`, `SkinStep`, `MessageStep`). Each one takes the server state and the oracle answers, and gives the new state and the messages sent. The class `Sockets.SocketServer` holds the mutable state: the `joiningInProgress` set, the registry of users, the connections, the session store and an output log. Its methods perform the handlers step by step, with the source's loops, and are proved equal to the step functions. Every send is an append to `log`; kicking a uid's earlier session is a `Kick` entry in the same log.
- **Session store** (`SessionStore`): the realm sessions and the global list of players they hold. The source calls into it, but its code is not part of this model. It is modelled only by what `sockets.ts` asks of it: lookups by uid, by room and by socket, player counts, creating a session, adding, moving, re-rooming and re-skinning a player, and logging out by socket id.
- **Realm listeners** (`backend/src/index.ts`): when an update or a delete of a `realms` row terminates the live session.
- **Route guard** (`frontend/middleware.ts`): the redirect decision from the path and whether a session exists. It includes `URLSearchParams.set` as the URL Standard defines it.
- **HTTP routes** (`backend/src/routes/routes.ts`): the input check of the guest video-call token, the validation and defaults of space creation, and the space echo by id.
- **OAuth callback** (`frontend/app/auth/callback/route.ts`): the redirect target from the code, the `next` parameter and the outcome of the code exchange.
- **Guest identity** (`frontend/app/play/PlayClient.tsx`): the effect that reuses or stores a guest's id and name in `localStorage`, then connects once.

Database lookups, token verification, the proximity engine's answers, the spawn point and the clock are inputs. `formatEmailToName`, `removeExtraSpaces` and `encodeURIComponent` are function-typed parameters.

Four behaviours of the code are modelled as written:

- **Duplicate join.** A second `joinRealm` for a uid already in `joiningInProgress` sends "Already joining a space." and clears the flag. It does not stop the join: the uid is marked again and the checks go on (sockets.ts:112-115).
- **Token holder with no registry entry.** When a joiner with a token has no entry in the user registry, `users.getUser(uid)!` yields `undefined` (the `!` is erased at compile time), and reading `user.user_metadata` at sockets.ts:140 throws a TypeError. The model calls this verdict `Aborted`: nothing is sent and the uid stays in `joiningInProgress`.
- **Non-empty stored values.** A stored guest id or name is kept only when it is a non-empty string (PlayClient.tsx:24-27). An empty stored value is overwritten.
- **`??` versus `||`.** `next` is defaulted with `??` (route.ts:8), so an empty `next` is kept and the visitor is redirected to the bare origin.

## Model

| member | source | states |
|---|---|---|
| JsBuiltins.OrElse | backend/src/sockets/sockets.ts:17 | `a \|\| b` on strings gives the fallback exactly when the value is empty (or equal to it) |
| JsBuiltins.TrimStart | backend/src/sockets/sockets.ts:249 | the result is a suffix of the input, the dropped prefix is all white space, and the result starts with a non-space |
| JsBuiltins.TrimEnd | backend/src/sockets/sockets.ts:249 | the result is a prefix of the input, the dropped suffix is all white space, and the result ends with a non-space |
| JsBuiltins.Trim | backend/src/sockets/sockets.ts:249 | the result is a slice of the input with only white space cut off each end, and it is empty or starts and ends with a non-space |
| JsBuiltins.TrimEmptyIffBlank | backend/src/sockets/sockets.ts:249 | `trim()` gives "" exactly when the string is all white space |
| Handshake.IndexOfSpace | backend/src/sockets/sockets.ts:15 | finds the first space: the index holds a space and no space comes before it; None exactly when there is no space |
| Handshake.BearerToken | backend/src/sockets/sockets.ts:15 | `header?.split(' ')[1]` is defined exactly when the header has a space, and it contains no space |
| Handshake.IndexOfSpaceAfterWord | backend/src/sockets/sockets.ts:15 | a space-free word followed by a space has its first space right after the word |
| Handshake.BearerTokenOfHeader | backend/src/sockets/sockets.ts:15 | round trip: from `"<scheme> <token>"`, with anything after a further space, the second word is the token |
| Handshake.TokenPresent | backend/src/sockets/sockets.ts:20 | `!access_token` is false exactly for a present, non-empty token: a missing header and an empty token both mean a guest (no ensures; the definition) |
| Handshake.Authorize | backend/src/sockets/sockets.ts:13-57 | with no token: accepted exactly when guests are allowed and the uid is not empty, as a guest named by the query or "Guest". With a token: accepted exactly when the uid is not empty, verification succeeds and the verified id equals the uid. A failed verification is refused as "Invalid access token."; each refusal carries one of the three messages |
| SessionStore.EmptyStore | backend/src/sockets/sockets.ts:6 | the store starts with no session and no player |
| SessionStore.Find | backend/src/sockets/sockets.ts:150 | the found index holds the uid; None means no row has the uid |
| SessionStore.PlayerOf | backend/src/sockets/sockets.ts:192 | `getPlayer` returns a row of the store with that uid; None means no row has it |
| SessionStore.PlayerSession | backend/src/sockets/sockets.ts:71 | `getPlayerSession` is present exactly when the uid has a row, and names that row's realm, which has a session |
| SessionStore.PlayerOfIsTheRow | backend/src/sockets/sockets.ts:192 | with unique uids, looking a row's uid up returns that row |
| SessionStore.InRealmMembers | backend/src/sockets/sockets.ts:119 | the players of a realm are exactly the rows with that realm id |
| SessionStore.InRoomMembers | backend/src/sockets/sockets.ts:86 | `getPlayersInRoom` lists exactly the rows of that realm and room |
| SessionStore.InRealm | backend/src/sockets/sockets.ts:119 | the rows of one realm, in store order, never more than the store holds; InRealmMembers proves they are exactly that realm's rows |
| SessionStore.PlayerCount | backend/src/sockets/sockets.ts:119 | `getPlayerCount()` is the number of rows of the realm (no ensures; the definition) |
| SessionStore.InRoom | backend/src/sockets/sockets.ts:85-86 | the rows of one room of one realm, in store order, never more than the store holds |
| SessionStore.PlayersInRoom | backend/src/sockets/sockets.ts:85-86 | `getPlayersInRoom(room)` of the realm's session (no ensures; the definition) |
| SessionStore.SocketIdsInRoom | backend/src/sockets/sockets.ts:183 | `getSocketIdsInRoom(realm, room)`: the socket ids of that room's rows, in order (no ensures; the definition) |
| SessionStore.SocketIds | backend/src/sockets/sockets.ts:183 | one socket id per player, in order |
| SessionStore.HasSocket | backend/src/sockets/sockets.ts:184 | true exactly when some row is bound to the socket |
| SessionStore.Without | backend/src/sockets/sockets.ts:152-184 | the store's rows less those of a uid (kick) or of a socket (logout), in order, never more rows than before; WithoutMembers and WithoutCount state the rest |
| SessionStore.WithoutMembers | backend/src/sockets/sockets.ts:152-184 | removing the rows of a uid (a kick) or of a socket (a logout) keeps exactly the rows the key does not match |
| SessionStore.CreateSession | backend/src/sockets/sockets.ts:146-148 | the session is created only when absent; existing sessions and all players are untouched |
| SessionStore.RemovePlayer | backend/src/sockets/sockets.ts:151-153 | afterwards the uid has no row; every other row stays |
| SessionStore.AddPlayer | backend/src/sockets/sockets.ts:155 | into an existing session, appends the new row; the sessions are unchanged |
| SessionStore.LogOutBySocketId | backend/src/sockets/sockets.ts:184 | reports success exactly when a row is bound to the socket, removes exactly those rows, and changes nothing on failure |
| SessionStore.MovePlayer | backend/src/sockets/sockets.ts:193 | only the uid's row changes, and only its coordinates |
| SessionStore.ChangeRoom | backend/src/sockets/sockets.ts:216 | only the uid's row changes, and only its room and coordinates |
| SessionStore.SetSkin | backend/src/sockets/sockets.ts:243 | only the uid's row changes, and only its skin |
| SessionStore.SameRowsSameCount | backend/src/sockets/sockets.ts:119 | updates that keep every row's uid and realm keep every realm's player count |
| SessionStore.SameRowsSameFind | backend/src/sockets/sockets.ts:192 | such updates keep where each uid is found |
| SessionStore.InPlaceUpdateKeepsShape | backend/src/sockets/sockets.ts:193 | an in-place row update keeps the store valid, every count, and every uid's realm and socket |
| SessionStore.MoveKeepsShape | backend/src/sockets/sockets.ts:193 | moving keeps the store valid, the counts and the bindings, and the mover's row gets the new coordinates |
| SessionStore.ChangeRoomKeepsShape | backend/src/sockets/sockets.ts:216 | a room change keeps the store valid, the counts and the bindings, and the row gets the new room and coordinates |
| SessionStore.SetSkinKeepsShape | backend/src/sockets/sockets.ts:243 | a skin change keeps the store valid, the counts and the bindings, and the row gets the new skin |
| SessionStore.WithoutCount | backend/src/sockets/sockets.ts:152-184 | removing the rows of a uid or of a socket never raises a realm's count |
| SessionStore.FilterKeepsUnique | backend/src/sockets/sockets.ts:152 | removing rows keeps uids unique |
| SessionStore.RemoveKeepsShape | backend/src/sockets/sockets.ts:151-153 | a kick keeps the store valid and raises no realm's count |
| SessionStore.LogOutKeepsShape | backend/src/sockets/sockets.ts:184 | a logout keeps the store valid and raises no realm's count |
| SessionStore.LogOutIsIdempotent | backend/src/sockets/sockets.ts:184 | a second logout of the same socket fails and changes nothing |
| SessionStore.NoSessionNoPlayers | backend/src/sockets/sockets.ts:117-123 | a realm with no session has no players |
| SessionStore.NoRowsOfRealm | backend/src/sockets/sockets.ts:119 | with no row of a realm, the realm's player list is empty |
| SessionStore.AddKeepsShape | backend/src/sockets/sockets.ts:155 | adding a new uid keeps the store valid, makes the new row the uid's player, adds one to its realm's count and leaves the other realms' counts |
| Sockets.SendToOthers | backend/src/sockets/sockets.ts:88-92 | at most one message per listed player |
| Sockets.SendToOthersAddressing | backend/src/sockets/sockets.ts:88-92 | the loop sends the event to exactly the listed sockets other than the sender's |
| Sockets.RoomBroadcast | backend/src/sockets/sockets.ts:79-93 | `emit` sends nothing when the uid has no session |
| Sockets.RoomBroadcastAddressing | backend/src/sockets/sockets.ts:79-93 | `emit` reaches every player in the uid's room except the sender's own socket, and nobody else |
| Sockets.RoomBroadcastSendsOnly | backend/src/sockets/sockets.ts:91 | `emit` only sends the given event; it never kicks |
| Sockets.SendToOthersSendsOnly | backend/src/sockets/sockets.ts:91 | the fan-out loop only sends the given event |
| Sockets.SendToSockets | backend/src/sockets/sockets.ts:95-99 | `emitToSocketIds` sends one message per listed socket, in order |
| Sockets.ProximityNotices | backend/src/sockets/sockets.ts:201-207 | one `proximityUpdate` per changed uid, to that uid's own socket, with its new group id |
| Sockets.NoticesAreProximityUpdates | backend/src/sockets/sockets.ts:204 | the proximity loop sends nothing but `proximityUpdate` |
| Sockets.Admission | backend/src/sockets/sockets.ts:165-177 | admitted exactly when the joiner owns the realm, or the realm is not owner-only and the share link matches; otherwise rejected as private (owner-only) or with a changed share link |
| Sockets.Full | backend/src/sockets/sockets.ts:117-123 | a join is refused for capacity only when a live session of the realm already holds 30 players or more (no ensures; the definition) |
| Sockets.NewPlayer | backend/src/sockets/sockets.ts:155-157 | the row `addPlayerToSession` creates: the joiner's socket, uid, realm, name, skin and spawn point (no ensures; the definition) |
| Sockets.DuplicateNotice | backend/src/sockets/sockets.ts:112-115 | an uid already joining is sent "Already joining a space.", and the join goes on (no ensures; the definition) |
| Sockets.Reject | backend/src/sockets/sockets.ts:103-106 | `rejectJoin(reason)`: the reason goes to the joiner and its in-progress flag is cleared (no ensures; the definition) |
| Sockets.JoinProfile | backend/src/sockets/sockets.ts:131-141 | a guest keeps its query name (or "Guest") and skin "009". A token holder takes its non-empty profile skin and the name derived from its registered e-mail, and the handler throws (None) exactly when it has no registry entry |
| Sockets.Admit | backend/src/sockets/sockets.ts:145-163 | `join()` creates the session only if absent, keeps the store valid, and makes the new row the uid's player. It sends, in order: the kick of the earlier session exactly when the uid had one, `joinedRealm` to the joiner, and `playerJoinedRoom` with the new row to the others in its room |
| Sockets.AdmitReplacesRow | backend/src/sockets/sockets.ts:150-155 | after `join()` the players are the earlier ones of other uids plus the new row |
| Sockets.AdmitCounts | backend/src/sockets/sockets.ts:150-155 | `join()` adds at most one player to the joined realm and none to any other |
| Sockets.AdmitKicksEarlierSession | backend/src/sockets/sockets.ts:150-153 | the uid's earlier session is kicked with "You have logged in from another location." exactly when it had one |
| Sockets.Gate | backend/src/sockets/sockets.ts:66-77 | a handler runs only when its payload passed the schema and the sender's uid has a session (no ensures; the definition) |
| Sockets.Proceed | backend/src/sockets/sockets.ts:117-177 | after the guard, the registry never changes and the store changes only on admission |
| Sockets.Decide | backend/src/sockets/sockets.ts:165-177 | admitted exactly when `Admission` admits; otherwise it is `rejectJoin` with the admission reason |
| Sockets.JoinStep | backend/src/sockets/sockets.ts:101-178 | checks in order, each rejection sending `failedToJoinRoom` with its reason and clearing the flag: invalid payload, then a live session of 30 or more players, then a missing realm, then the throwing profile lookup (which leaves the flag set), then admission. The duplicate notice does not stop the join; the store changes only on admission, and the registry never |
| Sockets.JoinKeepsCapacity | backend/src/sockets/sockets.ts:117-123 | no join pushes a realm past 30 players, and the store stays valid |
| Sockets.RejectedJoinChangesNoSession | backend/src/sockets/sockets.ts:103-106 | a rejected join leaves the store as it was, clears the flag, and tells the joiner why |
| Sockets.AdmittedJoinLeavesOneSession | backend/src/sockets/sockets.ts:145-163 | after an admitted join the uid has exactly one row, bound to the new socket, and a kick was sent exactly when it had a row before |
| Sockets.DisconnectStep | backend/src/sockets/sockets.ts:181-189 | dropped by the gate or by a failed logout: nothing changes and nothing is sent. Otherwise `playerLeftRoom` goes to the room's socket ids read before the logout, the socket's rows are logged out and the user entry is removed |
| Sockets.DisconnectIsIdempotent | backend/src/sockets/sockets.ts:181-189 | after a disconnect whose payload passed its schema, a second disconnect of the same socket sends nothing and changes nothing |
| Sockets.MoveStep | backend/src/sockets/sockets.ts:191-208 | when the gate passes, only the mover's coordinates change, `playerMoved` goes to its room, and the proximity notices follow |
| Sockets.RoomChange | backend/src/sockets/sockets.ts:213-225 | to another room: `playerLeftRoom` to the old room, the room change, `playerJoinedRoom` with the updated row to the new room, then the proximity notices |
| Sockets.InRoomTeleport | backend/src/sockets/sockets.ts:226-237 | in the same room: only the coordinates change; `playerTeleported` goes to the room, then the proximity notices, and no leave or join message is sent |
| Sockets.TeleportStep | backend/src/sockets/sockets.ts:210-238 | gated. The row gets the target room and coordinates, and the bindings, the flags and the registry are kept. The same room gives exactly `InRoomTeleport`'s store and messages, with no leave or join; another room gives exactly `RoomChange`'s |
| Sockets.SkinStep | backend/src/sockets/sockets.ts:240-245 | when the gate passes, only the sender's skin changes and it is announced to its room |
| Sockets.Deliverable | backend/src/sockets/sockets.ts:249 | a message is delivered only when it has at most 300 characters and is not blank after trimming (no ensures; the definition) |
| Sockets.MessageStep | backend/src/sockets/sockets.ts:247-255 | never changes state. Something is sent only for a message of at most 300 characters that is not blank; such a message, normalised, goes to the sender's room |
| Sockets.DisconnectKeepsCapacity | backend/src/sockets/sockets.ts:181-189 | a disconnect keeps the store valid and within 30 players per realm |
| Sockets.MoveKeepsCapacity | backend/src/sockets/sockets.ts:191-208 | a move keeps the store valid and within capacity |
| Sockets.TeleportKeepsCapacity | backend/src/sockets/sockets.ts:210-238 | a teleport keeps the store valid and within capacity |
| Sockets.SkinKeepsCapacity | backend/src/sockets/sockets.ts:240-245 | a skin change keeps the store valid and within capacity |
| Sockets.SocketServer.constructor | backend/src/sockets/sockets.ts:11 | the server starts with no joiners, no users, no sessions, no connections and an empty log |
| Sockets.SocketServer.Connect | backend/src/sockets/sockets.ts:13-57 | the handshake's verdict is `Authorize` on the bearer token; the user and the connection are registered only when it is accepted, and nothing else changes |
| Sockets.SocketServer.EmitToRoom | backend/src/sockets/sockets.ts:79-93 | the loop appends exactly `RoomBroadcast` to the log |
| Sockets.SocketServer.EmitToSocketIds | backend/src/sockets/sockets.ts:95-99 | the loop appends one message per listed socket |
| Sockets.SocketServer.NotifyProximity | backend/src/sockets/sockets.ts:201-207 | the loop appends exactly the proximity notices |
| Sockets.SocketServer.RejectJoin | backend/src/sockets/sockets.ts:103-106 | sends the reason to the joiner and clears its flag |
| Sockets.SocketServer.Join | backend/src/sockets/sockets.ts:145-163 | performs `Admit` on the store and the log, and clears the flag |
| Sockets.SocketServer.MarkJoining | backend/src/sockets/sockets.ts:112-115 | sends the duplicate notice if the uid was joining, then marks the uid |
| Sockets.SocketServer.ProceedJoin | backend/src/sockets/sockets.ts:117-177 | performs `Proceed` |
| Sockets.SocketServer.ResolveProfile | backend/src/sockets/sockets.ts:131-141 | computes `JoinProfile` from the registry |
| Sockets.SocketServer.AdmitOrReject | backend/src/sockets/sockets.ts:165-177 | performs `Decide` |
| Sockets.SocketServer.JoinRealm | backend/src/sockets/sockets.ts:101-178 | performs `JoinStep` and keeps the server within capacity |
| Sockets.SocketServer.Disconnect | backend/src/sockets/sockets.ts:181-189 | performs `DisconnectStep` and keeps the server within capacity |
| Sockets.SocketServer.MovePlayerTo | backend/src/sockets/sockets.ts:191-208 | performs `MoveStep` and keeps the server within capacity |
| Sockets.SocketServer.MoveAndAnnounce | backend/src/sockets/sockets.ts:192-207 | moves the row, then appends the room broadcast and the proximity notices, keeping capacity |
| Sockets.SocketServer.Teleport | backend/src/sockets/sockets.ts:210-238 | performs `TeleportStep` and keeps the server within capacity |
| Sockets.SocketServer.MoveToRoom | backend/src/sockets/sockets.ts:213-225 | performs `RoomChange` |
| Sockets.SocketServer.TeleportWithinRoom | backend/src/sockets/sockets.ts:226-237 | performs `InRoomTeleport` |
| Sockets.SocketServer.ChangedSkin | backend/src/sockets/sockets.ts:240-245 | performs `SkinStep` and keeps the server within capacity |
| Sockets.SocketServer.SendMessage | backend/src/sockets/sockets.ts:247-255 | performs `MessageStep` |
| RealmEvents.InvalidatesSessions | backend/src/index.ts:56-64 | the map changed, the share link changed, or the new row is owner-only (no ensures; the definition) |
| RealmEvents.OnRealmUpdate | backend/src/index.ts:53-68 | terminates exactly when the map changed, the share link changed or the new row is owner-only; at most once, with the new row's id and "This realm has been changed by the owner." |
| RealmEvents.OnRealmDelete | backend/src/index.ts:70-72 | always terminates the old row's id, with "This realm is no longer available." |
| RealmEvents.CosmeticUpdateKeepsSession | backend/src/index.ts:53-68 | an update with the same map and share link that is not owner-only terminates nothing |
| RealmEvents.EachTriggerTerminates | backend/src/index.ts:56-66 | each of the three conditions alone terminates the session with the change message |
| RealmEvents.PrivateRealmAlwaysTerminates | backend/src/index.ts:62-66 | an owner-only new row terminates even when nothing else changed |
| RealmEvents.RevertTerminatesLikeUpdate | backend/src/index.ts:53-68 | between two versions that are not owner-only, undoing an update terminates exactly when the update did |
| RealmEvents.CosmeticUpdatesCompose | backend/src/index.ts:53-68 | two updates that each leave the session running add up to a change that would not end it either |
| Middleware.StartsWith | frontend/middleware.ts:14-16 | `startsWith`: the path's first characters are the prefix (no ensures; the definition) |
| Middleware.Protected | frontend/middleware.ts:13-17 | a page is guarded when its path starts with /app, /dashboard or /game (no ensures; the definition) |
| Middleware.SignInOrLanding | frontend/middleware.ts:26 | a signed-in visitor is moved away from paths that start with /signin and from "/" (no ensures; the definition) |
| Middleware.GetParam | frontend/middleware.ts:21 | `searchParams.get`: the value of the first pair with the name, None without one (no ensures; the definition) |
| Middleware.SetParam | frontend/middleware.ts:21 | `searchParams.set` as the URL Standard defines it; SetParamSpec states what it yields |
| Middleware.SetFromFacts | frontend/middleware.ts:21 | the set operation on the query keeps the other pairs, leaves one pair with the name, and that pair reads the new value |
| Middleware.SetParamSpec | frontend/middleware.ts:21 | after `searchParams.set`, reading the name gives the value, the name occurs once, and every other pair is kept in order |
| Middleware.OthersGet | frontend/middleware.ts:21 | dropping one name leaves what other names read |
| Middleware.SetParamKeepsOtherNames | frontend/middleware.ts:21 | setting `redirectedFrom` leaves every other parameter's value |
| Middleware.Guard | frontend/middleware.ts:5-35 | redirects exactly when a guarded page is opened signed out, or the sign-in or landing page signed in. Signed out, the redirect goes to /signin with `redirectedFrom` set to the page, occurring exactly once, and the rest of the query kept; signed in, it goes to /game with the query kept |
| Middleware.PrefixChar | frontend/middleware.ts:14-16 | a path with a prefix has the prefix's characters |
| Middleware.SignedInReachesProtectedPages | frontend/middleware.ts:13-34 | a signed-in visitor opens every guarded page without a redirect |
| Middleware.SignedOutReachesPublicPages | frontend/middleware.ts:26-34 | a signed-out visitor opens the landing and sign-in pages |
| Middleware.RedirectsSettle | frontend/middleware.ts:5-35 | no redirect loop: the page redirected to is let through on the next request |
| Middleware.DiffersFromPrefix | frontend/middleware.ts:14-16 | a path that differs from a prefix at some position does not start with it |
| Middleware.PrefixMatchingGuardsLookalikes | frontend/middleware.ts:14-16 | plain prefix matching guards "/gamer" and redirects "/signinx" |
| Routes.Truthy | backend/src/routes/routes.ts:10 | JavaScript truthiness of a body field: false, 0, "", null and a missing field are falsy (no ensures; the definition) |
| Routes.AgoraToken | backend/src/routes/routes.ts:7-16 | succeeds exactly with a body, a truthy `channelName` and a minted token; a falsy name gets 400 "channelName required"; every other failure gets 500 "failed_to_generate_token" |
| Routes.CreateSpace | backend/src/routes/routes.ts:51-79 | 201 exactly when the name and the creator are truthy; otherwise 400, or 500 with no body. The space echoes the name and creator, defaults a falsy description to "", is public unless `is_public` is exactly `false`, and has no participants |
| Routes.CreateSpaceIsStable | backend/src/routes/routes.ts:61-69 | resubmitting a created space's fields at the same clock reading gives the same space |
| Routes.OnlyFalseMakesPrivate | backend/src/routes/routes.ts:67 | a missing, null, 0, "" or true `is_public` makes a public space; only `false` makes a private one |
| Routes.GetSpace | backend/src/routes/routes.ts:81-102 | echoes the id, names the space "Space " followed by the id, describes it as "A virtual space for collaboration", is public and created by "system" |
| Routes.SpaceNameIdentifiesSpace | backend/src/routes/routes.ts:89 | two ids with the same space name are the same id |
| AuthCallback.OutcomeOf | frontend/app/auth/callback/route.ts:12-39 | no truthy code gives no_code; an exchange that throws, an auth error the encoder refuses, or a success whose URL is refused gives server_error; an auth error otherwise carries its encoded message (no ensures; the definition) |
| AuthCallback.Target | frontend/app/auth/callback/route.ts:19-39 | the path and query each outcome redirects to; FailuresLandOnSignIn and FailureTargetShape state its shape (no ensures; the definition) |
| AuthCallback.NextOrDefault | frontend/app/auth/callback/route.ts:8 | only an absent `next` is replaced by "/game" |
| AuthCallback.Callback | frontend/app/auth/callback/route.ts:5-40 | the redirect is the request's origin followed by the target of the outcome. No truthy code gives no_code, an exchange error gives auth_callback_error with the encoded message, and a throw gives server_error. Success gives `next`, or server_error when the origin followed by `next` is not a URL the redirect accepts |
| AuthCallback.FailuresLandOnSignIn | frontend/app/auth/callback/route.ts:19-39 | every failure redirects to the origin's `/signin?error=` |
| AuthCallback.FailureTargetShape | frontend/app/auth/callback/route.ts:21-39 | each failure's target names its kind, and the auth error's target ends with the encoded message |
| AuthCallback.OutcomeIsRecoverable | frontend/app/auth/callback/route.ts:12-39 | unless `next` is itself a sign-in URL with a query, different outcomes never redirect to the same place |
| PlayClient.LocalStorage.constructor | frontend/app/play/PlayClient.tsx:22 | the storage starts with the given items |
| PlayClient.LocalStorage.GetItem | frontend/app/play/PlayClient.tsx:22-23 | `getItem` is null exactly for a key that is not stored, and gives the stored value otherwise |
| PlayClient.LocalStorage.SetItem | frontend/app/play/PlayClient.tsx:26-27 | `setItem` stores the value under the key and changes nothing else |
| PlayClient.Server.constructor | frontend/app/play/PlayClient.tsx:30 | no connection is opened yet |
| PlayClient.Server.Connect | frontend/app/play/PlayClient.tsx:30 | records one connection request |
| PlayClient.Kept | frontend/app/play/PlayClient.tsx:24-27 | a stored guest id or name counts only when it is a non-empty string (no ensures; the definition) |
| PlayClient.Lookup | frontend/app/play/PlayClient.tsx:22-23 | `getItem`: the stored value, or None for a key that is not stored (no ensures; the definition) |
| PlayClient.ResolveGuest | frontend/app/play/PlayClient.tsx:18-28 | the identity the effect connects with and the storage it leaves; the lemmas below and PlayEffect state its properties (no ensures; the definition) |
| PlayClient.PlayEffect | frontend/app/play/PlayClient.tsx:17-31 | connects exactly once, with the realm, the share link, the token and the resolved id and name, and leaves the storage as `ResolveGuest` says |
| PlayClient.SignedInIgnoresStorage | frontend/app/play/PlayClient.tsx:18-20 | with a token, the page's uid and name are used and the storage is left alone |
| PlayClient.GuestStorageProtocol | frontend/app/play/PlayClient.tsx:20-27 | a guest's kept id and name win over the page's, both keys are stored afterwards, kept values are not overwritten, and no other key changes |
| PlayClient.ResolutionIsIdempotent | frontend/app/play/PlayClient.tsx:17-28 | running the effect again on what it stored changes nothing |
| PlayClient.ReturningGuestKeepsIdentity | frontend/app/play/PlayClient.tsx:20-27 | once a guest visit stored a non-empty id and name, a later guest visit connects with them, whatever that page proposes |

## Left out

- The session manager (`../session`), the user registry (`../Users`) and `kickPlayer` (`./helpers`) are not part of this model. The store is modelled by what the handlers ask of it. A kick is a `Kick` entry in the log plus the removal of the uid's row. The eviction of empty sessions and `terminateSession` are not modelled: the realm listeners return the termination they request.
- The proximity engine is not modelled. The uids whose group changed, and their new group ids, are an input of each move or teleport. New players take a spawn point that is also an input.
- Sockets.MoveStep, Sockets.TeleportStep and the SocketServer methods MovePlayerTo and Teleport require `ChangesInRealm`: every uid the proximity engine reports must be a player of the mover's realm. RoomChange and InRoomTeleport require the weaker `ChangesPresent`: every reported uid has a row. For any other uid, `getPlayer` gives undefined, and reading its `.socketId` throws (sockets.ts:204, 222, 233). The handler then stops in the middle of its loop, after some notices were already sent. The model does not capture that partial run.
- The zod schemas are not modelled: a payload that fails its schema is `None`.
- The socket.io transport is not modelled. Sends are log entries; `socket.join` and socket rooms are not modelled.
- Supabase is not modelled. The realm row, the profile skin, the token verification, the code exchange and the realtime subscription are inputs.
- The `await` points of `joinRealm` are not modelled. Each handler is one atomic step, so interleaved joins, and what the duplicate notice races against, are out of scope.
- The clock is an input: `Date.now()` ids and `toISOString()` dates are parameters.
- `JSON.stringify` equality of map data is modelled as string equality of the serialised map.
- Console logging is not modelled.
- The Next.js `matcher` configuration (middleware.ts:37-39) is not modelled.
- The effect's cleanup (`server.disconnect`) is not modelled.
- The mock list of GET /spaces (routes.ts:19-49) is not modelled: it is constant data.
- The catch of GET /spaces/:id (routes.ts:98-101) is not modelled: nothing in its `try` can throw.
- The Agora token minting (routes/tokens.ts) is not modelled: its success or throw is an input.
- Numbers in JSON bodies are reals, with no NaN, so NaN's falsiness is not modelled.
- String lengths count `char`s: the 300-character limit is on the sequence length, like JavaScript's UTF-16 length only for text in the basic plane.
- Sockets.DisconnectIsIdempotent: it is stated only for a first disconnect whose payload passed its schema. When the first one was dropped, nothing was done, and the second is an ordinary disconnect.
- PlayClient.GuestStorageProtocol: "a stored value is never overwritten" holds for non-empty values only. The code treats an empty stored string as absent and overwrites it.
