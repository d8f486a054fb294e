/** The request gate of src/middleware.ts: the redirect-target sanitiser and the
    decision made for every matched request from its path, the session token
    lookup and the clock. */
module Middleware {
  import opened Wrappers
  import opened Strings
  import Uri

  const BlockedPaths: seq<string> := ["/api", "/_next", "/error", "/denied", "/favicon.ico", "/image"]
  const PublicPaths: seq<string> := ["/login", "/register"]
  const DefaultClientIp := "127.0.0.1"

  /** The characters of `[\w\-\/\?\&\=]` (without the `u` flag, `\w` is ASCII only). */
  predicate Allowed(c: char) {
    ('A' <= c <= 'Z') || ('a' <= c <= 'z') || ('0' <= c <= '9') ||
    c == '_' || c == '-' || c == '/' || c == '?' || c == '&' || c == '='
  }

  /** `prefixes.some(p => s.startsWith(p))`. */
  predicate AnyPrefix(s: string, prefixes: seq<string>) {
    exists i :: 0 <= i < |prefixes| && StartsWith(s, prefixes[i])
  }

  /** `s.replace(/[^\w\-\/\?\&\=]/g, '')`: the allowed characters of `s`, in order. */
  function KeepAllowed(s: string): (r: string)
    ensures |r| <= |s|
    ensures forall i :: 0 <= i < |r| ==> Allowed(r[i])
    ensures forall c :: c in r ==> c in s
    ensures (forall i :: 0 <= i < |s| ==> Allowed(s[i])) ==> r == s
    ensures |s| > 0 && Allowed(s[0]) ==> |r| > 0 && r[0] == s[0]
  {
    if |s| == 0 then ""
    else
      var rest := KeepAllowed(s[1..]);
      assert forall c :: c in s[1..] ==> c in s;
      if Allowed(s[0]) then [s[0]] + rest else rest
  }

  /** Every allowed character is kept as often as it occurs. */
  lemma {:induction false} KeepAllowedCounts(s: string)
    ensures forall c :: Allowed(c) ==> multiset(KeepAllowed(s))[c] == multiset(s)[c]
  {
    if |s| > 0 {
      assert s == [s[0]] + s[1..];
      KeepAllowedCounts(s[1..]);
    }
  }

  /** The filter works character by character, so what it keeps stays in order. */
  lemma {:induction false} KeepAllowedAppend(a: string, b: string)
    ensures KeepAllowed(a + b) == KeepAllowed(a) + KeepAllowed(b)
    decreases |a|
  {
    if |a| == 0 {
      assert a + b == b;
    } else {
      assert (a + b)[1..] == a[1..] + b;
      KeepAllowedAppend(a[1..], b);
    }
  }

  /** One character is kept exactly when it is allowed. */
  lemma KeepAllowedSingle(c: char)
    ensures KeepAllowed([c]) == if Allowed(c) then [c] else []
  {
    assert [c][1..] == [];
  }

  /** `sanitizeRedirectUrl(path)`. */
  function SanitizeRedirectUrl(path: string): (r: string)
    ensures !StartsWith(path, "/") ==> r == "/"
    ensures AnyPrefix(path, BlockedPaths) ==> r == "/"
    ensures StartsWith(path, "/") && !AnyPrefix(path, BlockedPaths) ==> r == KeepAllowed(path)
    ensures StartsWith(r, "/")
    ensures forall i :: 0 <= i < |r| ==> Allowed(r[i])
  {
    if !StartsWith(path, "/") then "/"
    else if AnyPrefix(path, BlockedPaths) then "/"
    else KeepAllowed(path)
  }

  /** A path that starts with '/', is not blocked and holds only allowed characters
      comes back unchanged. */
  lemma SanitizeKeepsCleanPath(path: string)
    requires StartsWith(path, "/") && !AnyPrefix(path, BlockedPaths)
    requires forall i :: 0 <= i < |path| ==> Allowed(path[i])
    ensures SanitizeRedirectUrl(path) == path
  {
  }

  /** The prefix test is plain: a path that merely begins like a blocked one is refused. */
  lemma PrefixBlocksLongerNames()
    ensures SanitizeRedirectUrl("/apix") == "/"
    ensures SanitizeRedirectUrl("/images/cover") == "/"
  {
    assert StartsWith("/apix", BlockedPaths[0]);
    assert StartsWith("/images/cover", BlockedPaths[5]);
  }

  /** "/a.pi" passes the prefix test and loses its '.'. */
  lemma SanitizeDropsDot()
    ensures SanitizeRedirectUrl("/a.pi") == "/api"
  {
    NotBlockedDot();
    KeepAllowedDot();
  }

  lemma NotBlockedDot()
    ensures !AnyPrefix("/a.pi", BlockedPaths)
  {
    var p := "/a.pi";
    forall i | 0 <= i < |BlockedPaths| ensures !StartsWith(p, BlockedPaths[i]) {
      assert p[1] == 'a' && p[2] == '.';
    }
  }

  lemma KeepAllowedDot()
    ensures KeepAllowed("/a.pi") == "/api"
  {
    var p := "/a.pi";
    assert p[1..] == "a.pi" && p[1..][1..] == ".pi" && p[1..][1..][1..] == "pi";
    assert KeepAllowed("pi") == "pi";
    assert KeepAllowed(".pi") == "pi";
    assert KeepAllowed("a.pi") == "a" + "pi";
  }

  /** Sanitising is not idempotent: dropping the '.' of "/a.pi" yields the blocked
      "/api", which a second pass turns into "/". */
  lemma SanitizeNotIdempotent()
    ensures SanitizeRedirectUrl("/a.pi") == "/api"
    ensures SanitizeRedirectUrl(SanitizeRedirectUrl("/a.pi")) == "/"
  {
    SanitizeDropsDot();
    assert StartsWith("/api", BlockedPaths[0]);
  }

  // ---- the decision -----------------------------------------------------------

  datatype Jwt = Jwt(exp: Option<int>, access: bool)

  /** What `getToken` does: throws, finds no valid session token, or returns one. */
  datatype TokenLookup = LookupThrows | NoToken | HasToken(token: Jwt)

  datatype Action = Next | Redirect(location: string)

  /** The response and the `x-forwarded-for` header set on it, if any. */
  datatype Reply = Reply(action: Action, forwardedFor: Option<string>)

  /** `forwardedFor || '127.0.0.1'`. */
  function ClientIp(forwardedFor: Option<string>): (ip: string)
    ensures ip != ""
  {
    if forwardedFor.Some? && forwardedFor.value != "" then forwardedFor.value else DefaultClientIp
  }

  /** `token.exp && token.exp < Date.now() / 1000`; an `exp` of 0 counts as absent. */
  predicate Expired(t: Jwt, nowMs: int) {
    t.exp.Some? && t.exp.value != 0 && (t.exp.value as real) < (nowMs as real) / 1000.0
  }

  function LoginRedirect(pathname: string): string {
    "/login?callbackUrl=" + Uri.EncodeURIComponent(SanitizeRedirectUrl(pathname))
  }

  /** `middleware(req)` for a request to `pathname` at time `nowMs`. */
  function Decide(pathname: string, forwardedFor: Option<string>, lookup: TokenLookup, nowMs: int): (r: Reply)
    ensures lookup.LookupThrows? ==> r == Reply(Redirect("/error"), None)
    ensures !lookup.LookupThrows? ==> r.forwardedFor == Some(ClientIp(forwardedFor))
    ensures !lookup.LookupThrows? && AnyPrefix(pathname, PublicPaths) ==> r.action == Next
    ensures !lookup.LookupThrows? && !AnyPrefix(pathname, PublicPaths) ==>
      (r.action == Redirect(LoginRedirect(pathname)) <==>
         lookup.NoToken? || Expired(lookup.token, nowMs))
    ensures r.action == Next <==>
      !lookup.LookupThrows? &&
      (AnyPrefix(pathname, PublicPaths) ||
       (lookup.HasToken? && !Expired(lookup.token, nowMs) && lookup.token.access))
    ensures r.action == Redirect("/denied") <==>
      !lookup.LookupThrows? && !AnyPrefix(pathname, PublicPaths) &&
      lookup.HasToken? && !Expired(lookup.token, nowMs) && !lookup.token.access
  {
    var ip := ClientIp(forwardedFor);
    match lookup
    case LookupThrows => Reply(Redirect("/error"), None)
    case NoToken =>
      if AnyPrefix(pathname, PublicPaths) then Reply(Next, Some(ip))
      else Reply(Redirect(LoginRedirect(pathname)), Some(ip))
    case HasToken(token) =>
      if AnyPrefix(pathname, PublicPaths) then Reply(Next, Some(ip))
      else if Expired(token, nowMs) then Reply(Redirect(LoginRedirect(pathname)), Some(ip))
      else if !token.access then Reply(Redirect("/denied"), Some(ip))
      else Reply(Next, Some(ip))
  }

  /** Only ASCII survives the sanitiser. */
  lemma SanitizedIsAscii(pathname: string)
    ensures Uri.IsAscii(SanitizeRedirectUrl(pathname))
  {
    var s := SanitizeRedirectUrl(pathname);
    forall i | 0 <= i < |s| ensures (s[i] as int) < 0x80 {
      assert Allowed(s[i]);
    }
  }

  /** The login redirect carries the sanitised path, and decoding the query value
      gives it back exactly: the encoding loses nothing and adds no '/', '?', '&' or '='. */
  lemma LoginCallbackRoundTrip(pathname: string)
    ensures var callback := Uri.EncodeURIComponent(SanitizeRedirectUrl(pathname));
      LoginRedirect(pathname) == "/login?callbackUrl=" + callback &&
      Uri.DecodeAscii(callback) == SanitizeRedirectUrl(pathname) &&
      forall i :: 0 <= i < |callback| ==> callback[i] !in {'/', '?', '&', '='}
  {
    SanitizedIsAscii(pathname);
    Uri.DecodeEncodeAscii(SanitizeRedirectUrl(pathname));
    Uri.EncodedHasNoDelimiters(SanitizeRedirectUrl(pathname));
  }
}
