/** Authentication rules of src/lib/auth.ts: the credentials check, the token
    enhancement, the accreditation check, and the sign-in step that creates or
    refreshes the user record. Database reads arrive as arguments; the password hash
    comparison and the login rate limiter are oracles. */
module Auth {
  import opened Wrappers
  import opened Strings
  import Middleware
  import Playlists

  // ---- accreditation --------------------------------------------------------------

  /** A user's populated accreditation: `authorizations` maps an access name to the
      actions it grants. */
  datatype Accreditation = Accreditation(authorizations: Option<map<string, seq<string>>>)

  /** Whether `authorizations[access]` exists and includes `action`. */
  predicate Grants(acc: Accreditation, access: string, action: string) {
    acc.authorizations.Some? && access in acc.authorizations.value &&
    action in acc.authorizations.value[access]
  }

  /** `checkAccreditation(request)`: false without a session or without a user record;
      otherwise the request is split on ':' and its first two parts are looked up. A
      request without ':' has no action, and `includes(undefined)` is false. */
  function CheckAccreditation(hasSession: bool, user: Option<Accreditation>, request: string): (granted: bool)
    ensures granted ==> hasSession && user.Some?
  {
    if !hasSession || user.None? then false
    else
      var parts := Split(request, ':');
      |parts| >= 2 && Grants(user.value, parts[0], parts[1])
  }

  /** For a request `access:action` (anything after a further ':' is ignored) with a
      session and a user, the answer is exactly whether the accreditation grants it. */
  lemma CheckAccreditationRequest(acc: Accreditation, access: string, action: string, tail: string)
    requires ':' !in access && ':' !in action
    requires tail == "" || tail[0] == ':'
    ensures CheckAccreditation(true, Some(acc), access + ":" + action + tail) <==> Grants(acc, access, action)
  {
    var request := access + ":" + action + tail;
    assert request == access + [':'] + (action + tail);
    SplitHead(access, ':', action + tail);
    SplitFirst(action, ':', tail);
  }

  /** A request with no ':' is never granted. */
  lemma NoActionDenied(hasSession: bool, user: Option<Accreditation>, request: string)
    requires ':' !in request
    ensures !CheckAccreditation(hasSession, user, request)
  {
    SplitNoSep(request, ':');
  }

  /** The check every page and route relies on. */
  lemma AppAccess(acc: Accreditation)
    ensures CheckAccreditation(true, Some(acc), "app:access") <==> Grants(acc, "app", "access")
  {
    assert "app:access" == "app" + ":" + "access" + "";
    CheckAccreditationRequest(acc, "app", "access", "");
  }

  // ---- token enhancement ----------------------------------------------------------

  /** The JWT the session callback sees: its expiry and the `access` claim. */
  datatype Token = Token(exp: Option<int>, access: Option<bool>)

  /** `enhanceToken`: `access` becomes the result of checking 'app:access'; when that
      check throws (`check` is `None`) the token is returned as it was. */
  function EnhanceToken(token: Token, check: Option<bool>): (r: Token)
    ensures r.exp == token.exp
    ensures check.Some? ==> r.access == check
    ensures check.None? ==> r == token
  {
    match check
    case Some(access) => token.(access := Some(access))
    case None => token
  }

  /** A failing check never revokes access that an earlier check granted. */
  lemma FailedCheckKeepsAccess(token: Token, granted: bool)
    ensures EnhanceToken(EnhanceToken(token, Some(granted)), None).access == Some(granted)
  {
  }

  /** The session token as the gate decodes it: a missing claim is falsy. */
  function GateToken(t: Token): Middleware.Jwt {
    Middleware.Jwt(t.exp, t.access.GetOr(false))
  }

  /** On a protected path, an unexpired token whose last check answered `granted` is
      let through exactly when `granted`, and is sent to /denied otherwise. */
  lemma MiddlewareSeesAccess(token: Token, granted: bool, pathname: string,
                             forwardedFor: Option<string>, nowMs: int)
    requires !Middleware.AnyPrefix(pathname, Middleware.PublicPaths)
    requires !Middleware.Expired(GateToken(token), nowMs)
    ensures var r := Middleware.Decide(pathname, forwardedFor,
                                       Middleware.HasToken(GateToken(EnhanceToken(token, Some(granted)))), nowMs);
      (r.action == Middleware.Next <==> granted) &&
      (!granted ==> r.action == Middleware.Redirect("/denied"))
  {
    assert GateToken(EnhanceToken(token, Some(granted))).exp == GateToken(token).exp;
  }

  // ---- credentials sign-in ----------------------------------------------------------

  datatype UserDoc = UserDoc(
    objectId: string,
    id: string,
    email: string,
    password: Option<string>,
    username: Option<string>,
    image: Option<string>,
    name: Option<string>,
    provider: string,
    verified: bool,
    accreditation: string,
    favouritePlaylist: Option<string>)

  datatype Credentials = Credentials(email: string, password: string)

  /** What `authorize` hands to the session. The lookup's projection selects `_id` but
      not `id`, and a lean record has no `id` getter, so `id` is always undefined. */
  datatype AuthUser = AuthUser(id: Option<string>, email: string, username: Option<string>,
                               name: Option<string>, favouritePlaylist: Option<string>)

  /** `authorize` throws, returns `null`, or returns a user. */
  datatype AuthorizeResult = Threw(message: string) | Rejected | Accepted(user: AuthUser)

  const AuthorizeError := "An error occurred"

  /** The limiter bucket for a client address. */
  function LimiterKey(ip: string): (key: string)
    ensures StartsWith(key, "login_") && key[|"login_"|..] == ip
  {
    "login_" + ip
  }

  /** `authorize(credentials, req)`: no credentials is a rejection; a rate-limited
      address is an error (reported as 'An error occurred', since the handler's own
      catch replaces the message); an unknown or unverified email or a wrong password
      is a rejection; a user without a password hash makes the comparison throw. */
  function Authorize(credentials: Option<Credentials>, forwardedFor: Option<string>,
                     limited: string -> bool, users: map<string, UserDoc>,
                     matches: (string, string) -> bool): (r: AuthorizeResult)
    ensures credentials.None? ==> r == Rejected
    ensures r.Threw? ==> r.message == AuthorizeError
    ensures credentials.Some? && limited(LimiterKey(Middleware.ClientIp(forwardedFor))) ==> r == Threw(AuthorizeError)
    ensures r.Accepted? <==>
      credentials.Some? && !limited(LimiterKey(Middleware.ClientIp(forwardedFor))) &&
      credentials.value.email in users && users[credentials.value.email].verified &&
      users[credentials.value.email].password.Some? &&
      matches(credentials.value.password, users[credentials.value.email].password.value)
    ensures r.Accepted? ==>
      var u := users[credentials.value.email];
      r.user == AuthUser(None, u.email, u.username, u.name, u.favouritePlaylist)
    // past the limiter, only a stored, verified user without a password hash throws
    ensures credentials.Some? && !limited(LimiterKey(Middleware.ClientIp(forwardedFor))) ==>
      (r.Threw? <==>
         credentials.value.email in users && users[credentials.value.email].verified &&
         users[credentials.value.email].password.None?)
    // an unknown or unverified email, or a wrong password, is a rejection (`null`)
    ensures credentials.Some? && !limited(LimiterKey(Middleware.ClientIp(forwardedFor))) ==>
      (r == Rejected <==>
         credentials.value.email !in users || !users[credentials.value.email].verified ||
         (users[credentials.value.email].password.Some? &&
          !matches(credentials.value.password, users[credentials.value.email].password.value)))
  {
    match credentials
    case None => Rejected
    case Some(c) =>
      var ip := Middleware.ClientIp(forwardedFor);
      if limited(LimiterKey(ip)) then Threw(AuthorizeError)
      else if c.email !in users || !users[c.email].verified then Rejected
      else
        var u := users[c.email];
        match u.password
        case None => Threw(AuthorizeError)
        case Some(hash) =>
          if !matches(c.password, hash) then Rejected
          else Accepted(AuthUser(None, u.email, u.username, u.name, u.favouritePlaylist))
  }

  /** Distinct client addresses never share a limiter bucket. */
  lemma LimiterKeyInjective(a: string, b: string)
    requires LimiterKey(a) == LimiterKey(b)
    ensures a == b
  {
    assert a == LimiterKey(a)[|"login_"|..];
  }

  /** A forwarded address shares the bucket of unforwarded requests exactly when it is
      empty or is the default address itself. */
  lemma SharedDefaultBucket(forwarded: string)
    ensures LimiterKey(Middleware.ClientIp(Some(forwarded))) == LimiterKey(Middleware.ClientIp(None))
      <==> forwarded == "" || forwarded == Middleware.DefaultClientIp
  {
    if LimiterKey(Middleware.ClientIp(Some(forwarded))) == LimiterKey(Middleware.ClientIp(None)) {
      LimiterKeyInjective(Middleware.ClientIp(Some(forwarded)), Middleware.ClientIp(None));
    }
  }

  /** Requests without a forwarded address all share the bucket of 127.0.0.1. */
  lemma UnforwardedShareBucket()
    ensures LimiterKey(Middleware.ClientIp(None)) == LimiterKey(Middleware.ClientIp(Some("")))
    ensures LimiterKey(Middleware.ClientIp(None)) == "login_127.0.0.1"
  {
  }

  // ---- OAuth / generic sign-in ---------------------------------------------------------

  /** The first present value of a `??` chain. */
  function Coalesce(xs: seq<Option<string>>): (r: Option<string>)
    ensures r.None? <==> forall i :: 0 <= i < |xs| ==> xs[i].None?
    ensures r.Some? ==>
      exists i :: 0 <= i < |xs| && xs[i] == r && (forall j :: 0 <= j < i ==> xs[j].None?)
  {
    if |xs| == 0 then None
    else if xs[0].Some? then xs[0]
    else
      var r := Coalesce(xs[1..]);
      assert forall i :: 1 <= i < |xs| ==> xs[i] == xs[1..][i - 1];
      if r.Some? then
        var i :| 0 <= i < |xs[1..]| && xs[1..][i] == r && forall j :: 0 <= j < i ==> xs[1..][j].None?;
        assert xs[i + 1] == r && forall j :: 0 <= j < i + 1 ==> xs[j].None?;
        r
      else r
  }

  /** The signed-in identity as the provider reports it. */
  datatype SignInUser = SignInUser(email: Option<string>, name: Option<string>, image: Option<string>)
  datatype Profile = Profile(name: Option<string>, login: Option<string>, image: Option<string>)

  /** The fields `handleSignIn` writes. */
  datatype UserData = UserData(username: Option<string>, image: Option<string>, name: Option<string>,
                               provider: string, verified: bool, accreditation: string)

  function ProfileName(p: Option<Profile>): Option<string> { if p.Some? then p.value.name else None }
  function ProfileLogin(p: Option<Profile>): Option<string> { if p.Some? then p.value.login else None }
  function ProfileImage(p: Option<Profile>): Option<string> { if p.Some? then p.value.image else None }

  function ExistingUsername(e: Option<UserDoc>): Option<string> { if e.Some? then e.value.username else None }
  function ExistingImage(e: Option<UserDoc>): Option<string> { if e.Some? then e.value.image else None }
  function ExistingName(e: Option<UserDoc>): Option<string> { if e.Some? then e.value.name else None }

  /** `account?.provider ?? 'credentials'`. */
  function ProviderOf(account: Option<string>): string {
    account.GetOr("credentials")
  }

  /** `userData`: each display field falls back through the profile, the provider's
      user, and the stored record; only Google and GitHub sign-ins are verified; a stored
      user keeps its accreditation and a new one gets the default. */
  function DeriveUserData(user: SignInUser, account: Option<string>, profile: Option<Profile>,
                          existing: Option<UserDoc>, defaultAccreditation: string): (d: UserData)
    ensures d.verified <==> ProviderOf(account) == "google" || ProviderOf(account) == "github"
    ensures d.accreditation == if existing.Some? then existing.value.accreditation else defaultAccreditation
    ensures d.provider == ProviderOf(account)
    ensures d.name.None? <==>
      ProfileName(profile).None? && user.name.None? && ProfileLogin(profile).None? && ExistingName(existing).None?
    ensures ProfileName(profile).Some? ==> d.name == ProfileName(profile) && d.username == ProfileName(profile)
    ensures d.username == Coalesce([ProfileName(profile), ProfileLogin(profile), ExistingUsername(existing)])
    ensures d.image == Coalesce([user.image, ProfileImage(profile), ExistingImage(existing)])
    ensures d.name == Coalesce([ProfileName(profile), user.name, ProfileLogin(profile), ExistingName(existing)])
  {
    var provider := ProviderOf(account);
    var names := [ProfileName(profile), user.name, ProfileLogin(profile), ExistingName(existing)];
    assert names[0] == ProfileName(profile) && names[1] == user.name;
    assert names[2] == ProfileLogin(profile) && names[3] == ExistingName(existing);
    UserData(
      Coalesce([ProfileName(profile), ProfileLogin(profile), ExistingUsername(existing)]),
      Coalesce([user.image, ProfileImage(profile), ExistingImage(existing)]),
      Coalesce(names),
      provider,
      provider in ["google", "github"],
      if existing.Some? then existing.value.accreditation else defaultAccreditation)
  }

  /** An empty string from the profile is kept, not skipped: `??` only skips null. */
  lemma EmptyProfileNameKept(user: SignInUser, account: Option<string>, existing: Option<UserDoc>, acc: string)
    ensures DeriveUserData(user, account, Some(Profile(Some(""), Some("octocat"), None)), existing, acc).name == Some("")
  {
  }

  /** `uuid().replace(/-/g, '')`. */
  function RemoveDashes(s: string): (r: string)
    ensures '-' !in r
    ensures |r| <= |s|
    ensures '-' !in s ==> r == s
  {
    if |s| == 0 then ""
    else (if s[0] == '-' then "" else [s[0]]) + RemoveDashes(s[1..])
  }

  /** Every character other than '-' is kept as often as it occurs. */
  lemma {:induction false} RemoveDashesCounts(s: string)
    ensures forall c :: c != '-' ==> multiset(RemoveDashes(s))[c] == multiset(s)[c]
  {
    if |s| > 0 {
      assert s == [s[0]] + s[1..];
      RemoveDashesCounts(s[1..]);
    }
  }

  /** Dashes are removed piece by piece, so the other characters keep their order. */
  lemma {:induction false} RemoveDashesAppend(a: string, b: string)
    ensures RemoveDashes(a + b) == RemoveDashes(a) + RemoveDashes(b)
    decreases |a|
  {
    if |a| == 0 {
      assert a + b == b;
    } else {
      assert (a + b)[1..] == a[1..] + b;
      RemoveDashesAppend(a[1..], b);
    }
  }

  /** A dash and a dash-free group after some text: only the dash goes. */
  lemma RemoveDashesGroup(a: string, g: string)
    requires '-' !in g
    ensures RemoveDashes(a + "-" + g) == RemoveDashes(a) + g
  {
    assert RemoveDashes("-") == "";
    RemoveDashesAppend(a, "-");
    RemoveDashesAppend(a + "-", g);
  }

  /** A UUID in its five dash-separated groups loses exactly its four dashes. */
  lemma UuidGroupsJoined(g1: string, g2: string, g3: string, g4: string, g5: string)
    requires '-' !in g1 && '-' !in g2 && '-' !in g3 && '-' !in g4 && '-' !in g5
    ensures RemoveDashes(g1 + "-" + g2 + "-" + g3 + "-" + g4 + "-" + g5) == g1 + g2 + g3 + g4 + g5
  {
    RemoveDashesGroup(g1, g2);
    RemoveDashesGroup(g1 + "-" + g2, g3);
    RemoveDashesGroup(g1 + "-" + g2 + "-" + g3, g4);
    RemoveDashesGroup(g1 + "-" + g2 + "-" + g3 + "-" + g4, g5);
  }

  const FavouritesName := "Favourites"

  /** A stored user after `findOneAndUpdate` with the derived fields. */
  function Refreshed(u: UserDoc, d: UserData): UserDoc {
    u.(username := d.username, image := d.image, name := d.name, provider := d.provider,
       verified := d.verified, accreditation := d.accreditation)
  }

  /** The record `UserModel.create` stores for a new user: no password, no favourites yet. */
  function NewUserDoc(objectId: string, uuid: string, email: string, d: UserData): UserDoc {
    UserDoc(objectId, RemoveDashes(uuid), email, None, d.username, d.image, d.name, d.provider,
            d.verified, d.accreditation, None)
  }

  /** The sign-in derivation for an email against the stored users. */
  function SignInData(users: map<string, UserDoc>, email: string, user: SignInUser, account: Option<string>,
                      profile: Option<Profile>, defaultAccreditation: string): UserData {
    DeriveUserData(user, account, profile, if email in users then Some(users[email]) else None,
                   defaultAccreditation)
  }

  /** The user collection, keyed by email. */
  class UserStore {
    var users: map<string, UserDoc>

    constructor (users: map<string, UserDoc>)
      ensures this.users == users
    {
      this.users := users;
    }

    /** `handleSignIn`. A missing or empty email, or no default accreditation, refuses the
        sign-in with nothing written. A stored user is refreshed with the derived fields
        and keeps its ids, password and favourites. A new user is created with a fresh
        dash-free id, then given a 'Favourites' playlist; if creating that playlist fails
        the sign-in is refused but the new user stays, without favourites. */
    method HandleSignIn(user: SignInUser, account: Option<string>, profile: Option<Profile>,
                        defaultAccreditation: Option<string>, freshObjectId: string, freshUuid: string,
                        store: Playlists.PlaylistStore, freshPlaylistId: string, createFails: bool)
      returns (ok: bool)
      requires freshPlaylistId !in store.playlists
      modifies this, store
      ensures store.tracks == old(store.tracks)
      ensures user.email.None? || user.email.value == "" || defaultAccreditation.None? ==>
        !ok && users == old(users) && store.playlists == old(store.playlists)
      ensures user.email.Some? && user.email.value != "" && defaultAccreditation.Some? &&
              user.email.value in old(users) ==>
        ok && store.playlists == old(store.playlists) &&
        users == old(users)[user.email.value := Refreshed(old(users)[user.email.value],
                 SignInData(old(users), user.email.value, user, account, profile, defaultAccreditation.value))]
      ensures user.email.Some? && user.email.value != "" && defaultAccreditation.Some? &&
              user.email.value !in old(users) ==>
        var created := NewUserDoc(freshObjectId, freshUuid, user.email.value,
                 SignInData(old(users), user.email.value, user, account, profile, defaultAccreditation.value));
        ok == !createFails &&
        (createFails ==> users == old(users)[user.email.value := created] &&
                         store.playlists == old(store.playlists)) &&
        (!createFails ==>
          users == old(users)[user.email.value := created.(favouritePlaylist := Some(freshPlaylistId))] &&
          store.playlists == old(store.playlists)[freshPlaylistId :=
            Playlists.PlaylistDoc(FavouritesName, freshObjectId, [])])
    {
      if user.email.None? || user.email.value == "" {
        return false;
      }
      var email := user.email.value;
      if defaultAccreditation.None? {
        return false;
      }
      var d := SignInData(users, email, user, account, profile, defaultAccreditation.value);
      if email in users {
        users := users[email := Refreshed(users[email], d)];
        return true;
      }
      var finalUser := NewUserDoc(freshObjectId, freshUuid, email, d);
      users := users[email := finalUser];
      var favourite := store.CreatePlaylist(FavouritesName, finalUser.objectId, freshPlaylistId, createFails);
      if favourite.status != 200 {
        return false;
      }
      users := users[email := finalUser.(favouritePlaylist := favourite.data)];
      ok := true;
    }
  }

  /** A sign-in through Google or GitHub is always verified, and one without a provider
      never is. */
  lemma VerifiedProviders(user: SignInUser, profile: Option<Profile>, existing: Option<UserDoc>, acc: string)
    ensures DeriveUserData(user, Some("google"), profile, existing, acc).verified
    ensures DeriveUserData(user, Some("github"), profile, existing, acc).verified
    ensures !DeriveUserData(user, None, profile, existing, acc).verified
    ensures DeriveUserData(user, None, profile, existing, acc).provider == "credentials"
  {
  }
}
