/**
 * The effect that opens the game connection in the play page
 * (frontend/app/play/PlayClient.tsx). A signed-in player connects as
 * themselves. A guest (no access token) is given a stable identity: an id
 * and a name kept in the browser's local storage are reused, and the ones
 * the page proposes are stored when none is kept yet. The effect's cleanup
 * (disconnecting) is not part of this model.
 */
module PlayClient {
  import opened JsBuiltins

  const GuestIdKey := "guestId"
  const GuestNameKey := "guestName"

  /** The browser's `localStorage`: string keys to string values. */
  class LocalStorage {
    var items: map<string, string>

    constructor (items: map<string, string>)
      ensures this.items == items
    {
      this.items := items;
    }

    /** `getItem`: null (None) for a key that is not stored. */
    function GetItem(key: string): (r: Option<string>)
      reads this
      ensures r.Some? <==> key in items
      ensures r.Some? ==> r.value == items[key]
    {
      if key in items then Some(items[key]) else None
    }

    /** `setItem`: the key now holds the value, and nothing else changes. */
    method SetItem(key: string, value: string)
      modifies this
      ensures items == old(items)[key := value]
    {
      items := items[key := value];
    }
  }

  /** The arguments of `server.connect`, in its order. */
  datatype ConnectCall = ConnectCall(realmId: string, uid: string, shareId: string, accessToken: string, username: string)

  /** The client side of the game connection, as far as this effect uses it: the connections it was asked to open. */
  class Server {
    var connects: seq<ConnectCall>

    constructor ()
      ensures connects == []
    {
      connects := [];
    }

    method Connect(call: ConnectCall)
      modifies this
      ensures connects == old(connects) + [call]
    {
      connects := connects + [call];
    }
  }

  /** The props of the page the effect reads; an empty access token means a guest. */
  datatype PlayProps = PlayProps(username: string, accessToken: string, realmId: string, uid: string, shareId: string)

  /** A stored value counts only when it is a non-empty string. */
  predicate Kept(stored: Option<string>) {
    stored.Some? && stored.value != ""
  }

  function Lookup(items: map<string, string>, key: string): Option<string> {
    if key in items then Some(items[key]) else None
  }

  /** Who the player connects as, and what the storage holds afterwards. */
  datatype Resolution = Resolution(guestId: string, guestName: string, items: map<string, string>)

  /** The identity resolution the effect performs, on the storage's contents. */
  function ResolveGuest(props: PlayProps, items: map<string, string>): Resolution {
    if props.accessToken != "" then Resolution(props.uid, props.username, items)
    else
      var storedId := Lookup(items, GuestIdKey);
      var storedName := Lookup(items, GuestNameKey);
      var id := if Kept(storedId) then storedId.value else props.uid;
      var name := if Kept(storedName) then storedName.value else props.username;
      var withId := if Kept(storedId) then items else items[GuestIdKey := id];
      Resolution(id, name, if Kept(storedName) then withId else withId[GuestNameKey := name])
  }

  /**
   * The body of the effect: resolve the identity step by step, store what
   * was missing, and connect once with it.
   */
  method PlayEffect(props: PlayProps, storage: LocalStorage, server: Server) returns (call: ConnectCall)
    modifies storage, server
    ensures var res := ResolveGuest(props, old(storage.items));
      call == ConnectCall(props.realmId, res.guestId, props.shareId, props.accessToken, res.guestName)
      && storage.items == res.items
    ensures server.connects == old(server.connects) + [call]
  {
    var guestName := props.username;
    var guestId := props.uid;
    if props.accessToken == "" {
      var storedId := storage.GetItem(GuestIdKey);
      var storedName := storage.GetItem(GuestNameKey);
      if Kept(storedId) {
        guestId := storedId.value;
      }
      if Kept(storedName) {
        guestName := storedName.value;
      }
      if !Kept(storedId) {
        storage.SetItem(GuestIdKey, guestId);
      }
      if !Kept(storedName) {
        storage.SetItem(GuestNameKey, guestName);
      }
    }
    call := ConnectCall(props.realmId, guestId, props.shareId, props.accessToken, guestName);
    server.Connect(call);
  }

  /** A signed-in player connects as the page says and the storage is left alone. */
  lemma SignedInIgnoresStorage(props: PlayProps, items: map<string, string>)
    requires props.accessToken != ""
    ensures ResolveGuest(props, items) == Resolution(props.uid, props.username, items)
  {
  }

  /**
   * A guest's kept id and name win over the page's, both keys are stored
   * afterwards, kept values are not overwritten, and no other key changes.
   */
  lemma GuestStorageProtocol(props: PlayProps, items: map<string, string>)
    requires props.accessToken == ""
    ensures var res := ResolveGuest(props, items);
      && (Kept(Lookup(items, GuestIdKey)) ==> res.guestId == items[GuestIdKey])
      && (Kept(Lookup(items, GuestNameKey)) ==> res.guestName == items[GuestNameKey])
      && (!Kept(Lookup(items, GuestIdKey)) ==> res.guestId == props.uid)
      && (!Kept(Lookup(items, GuestNameKey)) ==> res.guestName == props.username)
      && res.items.Keys == items.Keys + {GuestIdKey, GuestNameKey}
      && res.items[GuestIdKey] == res.guestId && res.items[GuestNameKey] == res.guestName
      && (forall key :: key in items && Kept(Lookup(items, key)) ==> res.items[key] == items[key])
      && (forall key :: key in items && key != GuestIdKey && key != GuestNameKey ==> res.items[key] == items[key])
  {
  }

  /**
   * Running the effect again on what it stored changes nothing: the guest
   * keeps the same identity and the storage stays as it was.
   */
  lemma ResolutionIsIdempotent(props: PlayProps, items: map<string, string>)
    ensures var res := ResolveGuest(props, items);
      ResolveGuest(props, res.items) == res
  {
  }

  /**
   * A returning guest keeps their identity: once a visit stored a non-empty
   * id and name, a later visit as a guest connects with them, whatever the
   * later page proposes.
   */
  lemma ReturningGuestKeepsIdentity(first: PlayProps, later: PlayProps, items: map<string, string>)
    requires first.accessToken == "" && later.accessToken == ""
    requires first.uid != "" && first.username != ""
    ensures var res := ResolveGuest(first, items);
      var again := ResolveGuest(later, res.items);
      again.guestId == res.guestId && again.guestName == res.guestName && again.items == res.items
  {
  }
}
