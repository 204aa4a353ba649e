/**
 * The connection guard of the socket server: a connection carries an
 * `authorization` header ("<scheme> <token>") and `uid`/`username` query
 * parameters. Without a token a guest identity is synthesised when guests are
 * enabled; with one, the identity service must vouch for exactly that uid.
 * The identity service's answer is an input.
 */
module Handshake {
  import opened JsBuiltins

  /** A registered identity: a synthesised guest, or an account the identity service returned. */
  datatype User = GuestUser(id: string, name: string) | AccountUser(id: string, email: string)
  {
    /** `user_metadata.email` of the identity. */
    function Email(): string {
      match this
      case GuestUser(_, name) => name + "@guest.local"
      case AccountUser(_, email) => email
    }
  }

  /** What the identity service says about a token. */
  datatype Verification = VerifyError | NoUser | Verified(id: string, email: string)

  datatype Handshake = Accepted(user: User) | Refused(message: string)

  const TokenOrUidInvalid := "Invalid access token or uid."
  const TokenInvalid := "Invalid access token."
  const UidInvalid := "Invalid uid."
  const GuestName := "Guest"
  const GuestsEnabled := "true"

  /** Index of the first space of `s`. */
  function IndexOfSpace(s: string): (r: Option<nat>)
    ensures r.Some? ==> r.value < |s| && s[r.value] == ' ' && ' ' !in s[..r.value]
    ensures r.None? ==> ' ' !in s
  {
    if s == [] then None
    else if s[0] == ' ' then Some(0)
    else match IndexOfSpace(s[1..])
      case None => None
      case Some(k) =>
        assert s[..k + 1] == [s[0]] + s[1..][..k];
        Some(k + 1)
  }

  /**
   * `header?.split(' ')[1]`: the second space-separated field of the
   * header, absent when there is no header or no space in it.
   */
  function BearerToken(header: Option<string>): (r: Option<string>)
    ensures r.Some? <==> header.Some? && ' ' in header.value
    ensures r.Some? ==> ' ' !in r.value
  {
    match header
    case None => None
    case Some(h) =>
      match IndexOfSpace(h)
      case None => None
      case Some(i) =>
        var rest := h[i + 1..];
        match IndexOfSpace(rest)
        case None => Some(rest)
        case Some(j) => Some(rest[..j])
  }

  lemma {:induction false} IndexOfSpaceAfterWord(word: string, tail: string)
    requires ' ' !in word && tail != [] && tail[0] == ' '
    ensures IndexOfSpace(word + tail) == Some(|word|)
  {
    if word != [] {
      assert (word + tail)[1..] == word[1..] + tail;
      IndexOfSpaceAfterWord(word[1..], tail);
    } else {
      assert word + tail == tail;
    }
  }

  /** A header built as "<scheme> <token>", possibly followed by more fields, yields the token back. */
  lemma BearerTokenOfHeader(scheme: string, token: string, tail: string)
    requires ' ' !in scheme && ' ' !in token
    requires tail == [] || tail[0] == ' '
    ensures BearerToken(Some(scheme + " " + token + tail)) == Some(token)
  {
    var h := scheme + " " + token + tail;
    IndexOfSpaceAfterWord(scheme, " " + token + tail);
    assert h == scheme + (" " + token + tail);
    var rest := h[|scheme| + 1..];
    assert rest == token + tail;
    if tail != [] {
      IndexOfSpaceAfterWord(token, tail);
    } else {
      assert rest == token;
    }
  }

  /** `!access_token`: a missing token and an empty one are both absent. */
  predicate TokenPresent(token: Option<string>) {
    token.Some? && token.value != ""
  }

  /**
   * The connection guard (`protectConnection`): decides whether the
   * connection may proceed and with which identity. `uid` and `username`
   * are the query parameters, "" when absent; `allowGuests` is the
   * ALLOW_GUESTS setting.
   */
  function Authorize(token: Option<string>, uid: string, username: string,
                     allowGuests: Option<string>, verification: Verification): (r: Handshake)
    ensures r.Accepted? ==> uid != "" && r.user.id == uid
    ensures !TokenPresent(token) ==>
      (r.Accepted? <==> allowGuests == Some(GuestsEnabled) && uid != "")
    ensures !TokenPresent(token) && r.Accepted? ==> r.user == GuestUser(uid, OrElse(username, GuestName))
    ensures TokenPresent(token) ==>
      (r.Accepted? <==> uid != "" && verification.Verified? && verification.id == uid)
    ensures TokenPresent(token) && r.Accepted? ==> r.user == AccountUser(uid, verification.email)
    ensures TokenPresent(token) && uid != "" && verification.VerifyError? ==> r == Refused(TokenInvalid)
    ensures r.Refused? ==> r.message in {TokenOrUidInvalid, TokenInvalid, UidInvalid}
  {
    if !TokenPresent(token) then
      if allowGuests == Some(GuestsEnabled) && uid != "" then Accepted(GuestUser(uid, OrElse(username, GuestName)))
      else Refused(TokenOrUidInvalid)
    else if uid == "" then Refused(TokenOrUidInvalid)
    else match verification
      case VerifyError => Refused(TokenInvalid)
      case NoUser => Refused(UidInvalid)
      case Verified(id, email) => if id != uid then Refused(UidInvalid) else Accepted(AccountUser(uid, email))
  }
}
