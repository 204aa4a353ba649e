/**
 * The route guard of the web front end (frontend/middleware.ts): signed-out
 * visitors are sent from the application's pages to the sign-in page, with
 * the page they wanted remembered in the query, and signed-in visitors are
 * sent from the landing and sign-in pages to the game. Whether a session
 * exists is an input (reading it is a call into the authentication client).
 */
module Middleware {
  import opened JsBuiltins

  /** The parts of `req.nextUrl` the guard reads or writes; the query is its ordered list of name/value pairs. */
  datatype NextUrl = NextUrl(pathname: string, query: seq<(string, string)>)

  /** `NextResponse.next()` lets the request through; a redirect carries its target. */
  datatype Response = Next | Redirect(target: NextUrl)

  const SignInPath := "/signin"
  const GamePath := "/game"
  const RedirectedFrom := "redirectedFrom"

  /** `String.prototype.startsWith`. */
  predicate StartsWith(s: string, prefix: string) {
    |prefix| <= |s| && s[..|prefix|] == prefix
  }

  /** Pages only a signed-in visitor may open; matching is by plain prefix, so "/gamer" is guarded too. */
  predicate Protected(pathname: string) {
    StartsWith(pathname, "/app") || StartsWith(pathname, "/dashboard") || StartsWith(pathname, GamePath)
  }

  /** Pages a signed-in visitor is moved away from. */
  predicate SignInOrLanding(pathname: string) {
    StartsWith(pathname, SignInPath) || pathname == "/"
  }

  /** `URLSearchParams.get`: the value of the first pair with that name. */
  function GetParam(query: seq<(string, string)>, name: string): Option<string> {
    if query == [] then None
    else if query[0].0 == name then Some(query[0].1)
    else GetParam(query[1..], name)
  }

  /** The pairs whose name differs from `name`, in order. */
  function Others(query: seq<(string, string)>, name: string): seq<(string, string)> {
    if query == [] then []
    else if query[0].0 == name then Others(query[1..], name)
    else [query[0]] + Others(query[1..], name)
  }

  /** How many pairs have that name. */
  function Occurrences(query: seq<(string, string)>, name: string): nat {
    if query == [] then 0
    else (if query[0].0 == name then 1 else 0) + Occurrences(query[1..], name)
  }

  /**
   * `URLSearchParams.set` as the URL Standard defines it: when a pair with
   * the name exists, the first one takes the new value and the others are
   * removed; otherwise the pair is appended. `seen` says whether the first
   * one has already been passed.
   */
  function SetFrom(query: seq<(string, string)>, name: string, value: string, seen: bool): seq<(string, string)> {
    if query == [] then (if seen then [] else [(name, value)])
    else if query[0].0 == name then
      (if seen then [] else [(name, value)]) + SetFrom(query[1..], name, value, true)
    else [query[0]] + SetFrom(query[1..], name, value, seen)
  }

  function SetParam(query: seq<(string, string)>, name: string, value: string): seq<(string, string)> {
    SetFrom(query, name, value, false)
  }

  lemma {:induction false} SetFromFacts(query: seq<(string, string)>, name: string, value: string, seen: bool)
    ensures Others(SetFrom(query, name, value, seen), name) == Others(query, name)
    ensures Occurrences(SetFrom(query, name, value, seen), name) == if seen then 0 else 1
    ensures !seen ==> GetParam(SetFrom(query, name, value, seen), name) == Some(value)
  {
    if query != [] {
      var rest := SetFrom(query[1..], name, value, if query[0].0 == name then true else seen);
      SetFromFacts(query[1..], name, value, if query[0].0 == name then true else seen);
      var head := if query[0].0 == name then (if seen then [] else [(name, value)]) else [query[0]];
      assert SetFrom(query, name, value, seen) == head + rest;
      if head != [] {
        assert (head + rest)[0] == head[0] && (head + rest)[1..] == rest;
      } else {
        assert head + rest == rest;
      }
    } else if !seen {
      assert [(name, value)][1..] == [];
    }
  }

  /**
   * After `set`, reading the name gives the new value, the name occurs
   * exactly once, and every other pair is kept in its order.
   */
  lemma SetParamSpec(query: seq<(string, string)>, name: string, value: string)
    ensures GetParam(SetParam(query, name, value), name) == Some(value)
    ensures Occurrences(SetParam(query, name, value), name) == 1
    ensures Others(SetParam(query, name, value), name) == Others(query, name)
  {
    SetFromFacts(query, name, value, false);
  }

  lemma {:induction false} OthersGet(query: seq<(string, string)>, name: string, other: string)
    requires other != name
    ensures GetParam(Others(query, name), other) == GetParam(query, other)
  {
    if query != [] {
      OthersGet(query[1..], name, other);
    }
  }

  /** Setting one name leaves what every other name reads unchanged. */
  lemma SetParamKeepsOtherNames(query: seq<(string, string)>, name: string, value: string, other: string)
    requires other != name
    ensures GetParam(SetParam(query, name, value), other) == GetParam(query, other)
  {
    SetParamSpec(query, name, value);
    OthersGet(SetParam(query, name, value), name, other);
    OthersGet(query, name, other);
  }

  /** `middleware(req)`, with `hasSession` the result of `getSession`. */
  function Guard(url: NextUrl, hasSession: bool): (r: Response)
    ensures r.Redirect? <==> (Protected(url.pathname) && !hasSession) || (SignInOrLanding(url.pathname) && hasSession)
    ensures r.Redirect? && !hasSession ==>
      r.target.pathname == SignInPath && GetParam(r.target.query, RedirectedFrom) == Some(url.pathname)
      && Occurrences(r.target.query, RedirectedFrom) == 1
      && Others(r.target.query, RedirectedFrom) == Others(url.query, RedirectedFrom)
    ensures r.Redirect? && hasSession ==> r.target == url.(pathname := GamePath)
  {
    if Protected(url.pathname) && !hasSession then
      SetParamSpec(url.query, RedirectedFrom, url.pathname);
      Redirect(url.(pathname := SignInPath, query := SetParam(url.query, RedirectedFrom, url.pathname)))
    else if SignInOrLanding(url.pathname) && hasSession then
      Redirect(url.(pathname := GamePath))
    else
      Next
  }

  lemma PrefixChar(s: string, prefix: string, i: nat)
    requires StartsWith(s, prefix) && i < |prefix|
    ensures s[i] == prefix[i]
  {
    assert s[..|prefix|][i] == s[i];
  }

  /** A guarded page and the sign-in pages never overlap, so a signed-in visitor reaches every guarded page. */
  lemma SignedInReachesProtectedPages(url: NextUrl)
    requires Protected(url.pathname)
    ensures Guard(url, true) == Next
  {
    var p := url.pathname;
    if StartsWith(p, "/app") {
      PrefixChar(p, "/app", 1);
    } else if StartsWith(p, "/dashboard") {
      PrefixChar(p, "/dashboard", 1);
    } else {
      PrefixChar(p, GamePath, 1);
    }
    assert !StartsWith(p, SignInPath) by {
      if StartsWith(p, SignInPath) {
        PrefixChar(p, SignInPath, 1);
      }
    }
  }

  /** A signed-out visitor may open the landing and sign-in pages. */
  lemma SignedOutReachesPublicPages(url: NextUrl)
    requires SignInOrLanding(url.pathname)
    ensures Guard(url, false) == Next
  {
    var p := url.pathname;
    if StartsWith(p, SignInPath) {
      PrefixChar(p, SignInPath, 1);
    }
  }

  /**
   * No redirect loops: the page a visitor is redirected to is let through
   * on the next request, signed in or not.
   */
  lemma RedirectsSettle(url: NextUrl, hasSession: bool)
    requires Guard(url, hasSession).Redirect?
    ensures Guard(Guard(url, hasSession).target, hasSession) == Next
  {
    var target := Guard(url, hasSession).target;
    if hasSession {
      assert target.pathname == GamePath;
      SignedInReachesProtectedPages(target);
    } else {
      assert target.pathname == SignInPath;
      assert StartsWith(target.pathname, SignInPath);
      SignedOutReachesPublicPages(target);
    }
  }

  /** A string that differs from a prefix at some position does not start with it. */
  lemma DiffersFromPrefix(s: string, prefix: string, i: nat)
    requires i < |s| && i < |prefix| && s[i] != prefix[i]
    ensures !StartsWith(s, prefix)
  {
    if StartsWith(s, prefix) {
      PrefixChar(s, prefix, i);
    }
  }

  /** Prefix matching guards pages that merely start like a guarded one. */
  lemma PrefixMatchingGuardsLookalikes()
    ensures Guard(NextUrl("/gamer", []), false) == Redirect(NextUrl(SignInPath, [(RedirectedFrom, "/gamer")]))
    ensures Guard(NextUrl("/signinx", []), true) == Redirect(NextUrl(GamePath, []))
  {
    assert "/gamer"[..|GamePath|] == GamePath;
    assert "/signinx"[..|SignInPath|] == SignInPath;
    assert "/signinx"[1] == 's';
    DiffersFromPrefix("/signinx", "/app", 1);
    DiffersFromPrefix("/signinx", "/dashboard", 1);
    DiffersFromPrefix("/signinx", GamePath, 1);
  }
}
