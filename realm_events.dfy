/**
 * The reaction of the presence server to changes of a realm's row in the
 * database (backend/src/index.ts): an update that touches what a live
 * session depends on, or a delete, ends the realm's session with a message
 * for its players. The decision is pure; the change feed delivering the
 * rows and the session manager carrying out the termination are not part
 * of this model, so the decision is returned as a command.
 */
module RealmEvents {
  import opened JsBuiltins

  /**
   * The fields of a `realms` row the decision reads. The map is compared
   * by its JSON serialisation, so it is kept as that text; a share link
   * may be null.
   */
  datatype RealmRecord = RealmRecord(id: string, mapJson: string, shareId: Option<string>, onlyOwner: bool)

  /** `terminateSession(realmId, message)`. */
  datatype Termination = Termination(realmId: string, message: string)

  const RealmChanged := "This realm has been changed by the owner."
  const RealmGone := "This realm is no longer available."

  /** A live session must be ended when the map or the share link changed, or the realm is now owner-only. */
  predicate InvalidatesSessions(newRow: RealmRecord, oldRow: RealmRecord) {
    newRow.mapJson != oldRow.mapJson || newRow.shareId != oldRow.shareId || newRow.onlyOwner
  }

  /**
   * `onRealmUpdate`: the `refresh` flag is raised by each of the three
   * checks in turn; when it ends up raised, the session of the new row's id
   * is terminated once.
   */
  function OnRealmUpdate(newRow: RealmRecord, oldRow: RealmRecord): (r: Option<Termination>)
    ensures r.Some? <==> InvalidatesSessions(newRow, oldRow)
    ensures r.Some? ==> r.value.realmId == newRow.id && r.value.message == RealmChanged
  {
    var refresh := false;
    var refresh := if newRow.mapJson != oldRow.mapJson then true else refresh;
    var refresh := if newRow.shareId != oldRow.shareId then true else refresh;
    var refresh := if newRow.onlyOwner then true else refresh;
    if refresh then Some(Termination(newRow.id, RealmChanged)) else None
  }

  /** `onRealmDelete`: the deleted row's session is always terminated. */
  function OnRealmDelete(oldRow: RealmRecord): (r: Termination)
    ensures r.realmId == oldRow.id
    ensures r.message == RealmGone && r.message != RealmChanged
  {
    Termination(oldRow.id, RealmGone)
  }

  /**
   * Saving a public realm without touching its map or share link leaves
   * its players in place, whatever else (the name, say) changed.
   */
  lemma CosmeticUpdateKeepsSession(newRow: RealmRecord, oldRow: RealmRecord)
    requires newRow.mapJson == oldRow.mapJson && newRow.shareId == oldRow.shareId && !newRow.onlyOwner
    ensures OnRealmUpdate(newRow, oldRow) == None
  {
  }

  /**
   * Each of the three triggers terminates on its own: changing the map,
   * rotating the share link, or making the realm owner-only, starting from
   * any row.
   */
  lemma EachTriggerTerminates(oldRow: RealmRecord, mapJson: string, shareId: Option<string>)
    ensures mapJson != oldRow.mapJson ==>
      OnRealmUpdate(oldRow.(mapJson := mapJson), oldRow) == Some(Termination(oldRow.id, RealmChanged))
    ensures shareId != oldRow.shareId ==>
      OnRealmUpdate(oldRow.(shareId := shareId), oldRow) == Some(Termination(oldRow.id, RealmChanged))
    ensures OnRealmUpdate(oldRow.(onlyOwner := true), oldRow) == Some(Termination(oldRow.id, RealmChanged))
  {
  }

  /** An owner-only realm is terminated on every update, even one that changes nothing. */
  lemma PrivateRealmAlwaysTerminates(newRow: RealmRecord, oldRow: RealmRecord)
    requires newRow.onlyOwner
    ensures OnRealmUpdate(newRow, oldRow).Some?
    ensures OnRealmUpdate(newRow, newRow) == Some(Termination(newRow.id, RealmChanged))
  {
  }

  /**
   * Between two public versions of a realm, undoing an update terminates
   * the session exactly when the update did: the decision does not depend
   * on which version is the newer one. This pins the decision to plain
   * comparisons of the map and of the share link: the equality the handler
   * uses is symmetric.
   */
  lemma RevertTerminatesLikeUpdate(newRow: RealmRecord, oldRow: RealmRecord)
    requires !newRow.onlyOwner && !oldRow.onlyOwner
    ensures OnRealmUpdate(newRow, oldRow).Some? <==> OnRealmUpdate(oldRow, newRow).Some?
  {
  }

  /**
   * A chain of updates that each leave the session running adds up to a
   * change that would not have ended it either: cosmetic edits cannot
   * accumulate into a termination. This pins the decision to plain
   * comparisons of the map and of the share link: the equality the handler
   * uses is transitive.
   */
  lemma CosmeticUpdatesCompose(first: RealmRecord, second: RealmRecord, third: RealmRecord)
    requires OnRealmUpdate(second, first) == None && OnRealmUpdate(third, second) == None
    ensures OnRealmUpdate(third, first) == None
  {
  }
}
