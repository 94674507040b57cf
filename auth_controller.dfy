/**
 * The account request handlers over the user collection: registration with
 * unique email and username, login, profile update, access-token refresh and
 * logout. Token signing and verification are parameters (the tokens issued and
 * the id a valid refresh token carries); a bcrypt hash is a `Digest` that
 * compares equal only to the text it was made from.
 */
module AuthController {
  import opened JsValues

  /** `bcrypt.hash(secret, 10)`; the salt is the random part. */
  datatype Digest = Digest(secret: string, salt: nat)

  /** `bcrypt.compare(plain, digest)`. */
  predicate Compare(plain: string, d: Digest)
  {
    d.secret == plain
  }

  /**
   * A stored user. `password` is whatever was assigned to the field (the user
   * model's own treatment of it is not part of this model); `phoneNumber` None is
   * unset; `refreshToken` None is `null`.
   */
  datatype User = User(
    username: string,
    email: string,
    password: string,
    phoneNumber: Option<Value>,
    refreshToken: Option<Digest>)

  datatype AuthReply =
    | Json(status: nat, message: string)
    | WithToken(status: nat, message: string, accessToken: string)
    | ProfileOf(id: string, username: string, email: string, phoneNumber: Option<Value>)
    | AccessToken(accessToken: string)
    | NoContent

  /** What the response does to the refresh-token cookie. */
  datatype CookieAction = KeepCookie | SetCookie(token: string) | ClearCookie

  const EmailTaken := "User already exists with that email"
  const UsernameTaken := "Username is already taken"
  const Registered := "User registered successfully"
  const InvalidCredentials := "Invalid credentials"
  const LoggedIn := "Login successful"
  const UserNotFound := "User not found"
  const NoRefreshToken := "Unauthorized: No Refresh Token"
  const UnknownTokenUser := "Forbidden: User not found with refresh token"
  const InvalidRefreshToken := "Forbidden: Invalid Refresh Token"
  const ExpiredRefreshToken := "Forbidden: Invalid or expired Refresh Token"
  const LoggedOut := "Logged out successfully"

  /** `!cookies?.refreshToken` is false. */
  predicate HasCookie(cookie: Option<string>)
  {
    cookie.Some? && cookie.value != ""
  }

  /**
   * `findOne(filter)` in the collection's natural order: the position of the
   * first user satisfying p.
   */
  function FirstIndex(order: seq<string>, users: map<string, User>, p: User -> bool): (r: Option<nat>)
    ensures r.Some? ==> r.value < |order| && order[r.value] in users && p(users[order[r.value]])
    ensures r.Some? ==> forall j :: 0 <= j < r.value ==> !(order[j] in users && p(users[order[j]]))
    ensures r.None? ==> forall j :: 0 <= j < |order| ==> !(order[j] in users && p(users[order[j]]))
  {
    if order == [] then None
    else if order[0] in users && p(users[order[0]]) then Some(0)
    else
      match FirstIndex(order[1..], users, p)
      case None => None
      case Some(i) => Some(i + 1)
  }

  /** Holds a refresh-token digest. */
  predicate HasToken(u: User)
  {
    u.refreshToken.Some?
  }

  /** Holds a digest of this token. */
  predicate HoldsToken(u: User, token: string)
  {
    u.refreshToken.Some? && Compare(token, u.refreshToken.value)
  }

  // ---------------------------------------------------------------------------
  // refreshAccessToken

  /**
   * `refreshAccessToken`: 401 without a cookie; 403 with the cookie cleared when
   * the token does not verify (`decoded` None), names no user, or does not match
   * the stored digest; otherwise a new access token. It never writes.
   */
  function Refresh(users: map<string, User>, cookie: Option<string>, decoded: Option<string>,
                   accessToken: string): (r: (AuthReply, CookieAction))
    ensures !HasCookie(cookie) ==> r == (Json(401, NoRefreshToken), KeepCookie)
    ensures r.0.AccessToken? <==>
      HasCookie(cookie) && decoded.Some? && decoded.value in users && HoldsToken(users[decoded.value], cookie.value)
    ensures HasCookie(cookie) && !r.0.AccessToken? ==> r.1 == ClearCookie && r.0.Json? && r.0.status == 403
  {
    if !HasCookie(cookie) then (Json(401, NoRefreshToken), KeepCookie)
    else if decoded.None? then (Json(403, ExpiredRefreshToken), ClearCookie)
    else if decoded.value !in users then (Json(403, UnknownTokenUser), ClearCookie)
    else
      var stored := users[decoded.value].refreshToken;
      if stored.None? then (Json(403, ExpiredRefreshToken), ClearCookie)
      else if !Compare(cookie.value, stored.value) then (Json(403, InvalidRefreshToken), ClearCookie)
      else (AccessToken(accessToken), KeepCookie)
  }

  // ---------------------------------------------------------------------------
  // logoutUser

  datatype LogoutResult = LogoutResult(reply: AuthReply, cookie: CookieAction, users: map<string, User>)

  function ClearToken(users: map<string, User>, id: string): map<string, User>
    requires id in users
  {
    users[id := users[id].(refreshToken := None)]
  }

  /**
   * `logoutUser` as written: it compares the cookie with the digest of the
   * first user holding any refresh token, not with the digest of the user the
   * cookie belongs to.
   */
  function LogoutAsWritten(users: map<string, User>, order: seq<string>, cookie: Option<string>): (r: LogoutResult)
    ensures !HasCookie(cookie) ==> r == LogoutResult(NoContent, KeepCookie, users)
    ensures forall id :: id in users ==> id in r.users && (r.users[id] == users[id] || HoldsToken(users[id], cookie.value))
    ensures r.users.Keys == users.Keys
    ensures forall id :: id in users ==> r.users[id] == users[id].(refreshToken := r.users[id].refreshToken)
  {
    if !HasCookie(cookie) then LogoutResult(NoContent, KeepCookie, users)
    else
      match FirstIndex(order, users, HasToken)
      case None => LogoutResult(Json(200, LoggedOut), ClearCookie, users)
      case Some(i) =>
        var id := order[i];
        if !Compare(cookie.value, users[id].refreshToken.value) then LogoutResult(NoContent, ClearCookie, users)
        else LogoutResult(Json(200, LoggedOut), ClearCookie, ClearToken(users, id))
  }

  /**
   * `logoutUser` as evidently intended: the user whose stored digest matches the
   * cookie has it cleared; with no such user the cookie is cleared and nothing
   * is written.
   */
  function Logout(users: map<string, User>, order: seq<string>, cookie: Option<string>): (r: LogoutResult)
    ensures !HasCookie(cookie) ==> r == LogoutResult(NoContent, KeepCookie, users)
    ensures r.users.Keys == users.Keys
    ensures HasCookie(cookie) ==> r.cookie == ClearCookie
    ensures forall id :: id in users ==> r.users[id] == users[id].(refreshToken := r.users[id].refreshToken)
  {
    if !HasCookie(cookie) then LogoutResult(NoContent, KeepCookie, users)
    else
      match FirstIndex(order, users, u => HoldsToken(u, cookie.value))
      case None => LogoutResult(NoContent, ClearCookie, users)
      case Some(i) => LogoutResult(Json(200, LoggedOut), ClearCookie, ClearToken(users, order[i]))
  }

  /** Every user is in the natural order. */
  predicate Ordered(users: map<string, User>, order: seq<string>)
  {
    && (forall id :: id in users ==> id in order)
    && (forall i :: 0 <= i < |order| ==> order[i] in users)
  }

  /**
   * After the intended logout, the first user holding the cookie's token holds
   * none, every other user is unchanged, and when no one else held a digest of
   * that token, refreshing with it fails for every token payload.
   */
  lemma LogoutRevokes(users: map<string, User>, order: seq<string>, token: string, decoded: Option<string>,
                      accessToken: string)
    requires Ordered(users, order) && token != ""
    requires forall a, b :: a in users && b in users && HoldsToken(users[a], token) && HoldsToken(users[b], token) ==> a == b
    ensures var after := Logout(users, order, Some(token)).users;
      && (forall id :: id in users ==> !HoldsToken(after[id], token))
      && (forall id :: id in users && !HoldsToken(users[id], token) ==> after[id] == users[id])
      && !Refresh(after, Some(token), decoded, accessToken).0.AccessToken?
  {
    var p := u => HoldsToken(u, token);
    var after := Logout(users, order, Some(token)).users;
    match FirstIndex(order, users, p)
    case None =>
      forall id | id in users ensures !HoldsToken(users[id], token) {
        var j :| 0 <= j < |order| && order[j] == id;
      }
    case Some(i) =>
  }

  /**
   * The as-written logout leaves the wrong session alive: with users a and b both
   * logged in, a first in natural order, b's logout compares b's token with a's
   * digest, so b's digest stays stored and b's token still refreshes; the
   * intended logout revokes it.
   */
  lemma LogoutAsWrittenKeepsOtherSession()
    ensures var users := map["a" := User("ann", "a@x", "pa", None, Some(Digest("ta", 0))),
                             "b" := User("bob", "b@x", "pb", None, Some(Digest("tb", 0)))];
      && LogoutAsWritten(users, ["a", "b"], Some("tb")).users == users
      && Refresh(LogoutAsWritten(users, ["a", "b"], Some("tb")).users, Some("tb"), Some("b"), "new").0
         == AccessToken("new")
      && Logout(users, ["a", "b"], Some("tb")).users["b"].refreshToken == None
      && !Refresh(Logout(users, ["a", "b"], Some("tb")).users, Some("tb"), Some("b"), "new").0.AccessToken?
  {
    var users := map["a" := User("ann", "a@x", "pa", None, Some(Digest("ta", 0))),
                     "b" := User("bob", "b@x", "pb", None, Some(Digest("tb", 0)))];
    assert FirstIndex(["a", "b"], users, HasToken) == Some(0);
    var p := u => HoldsToken(u, "tb");
    assert FirstIndex(["a", "b"][1..], users, p) == Some(0);
    assert FirstIndex(["a", "b"], users, p) == Some(1);
  }

  // ---------------------------------------------------------------------------
  // updateUserProfile

  /** `username && username !== user.username`. */
  predicate Renames(u: User, username: Option<string>)
  {
    username.Some? && username.value != "" && username.value != u.username
  }

  /** The requested new username belongs to some user already. */
  predicate UsernameClash(users: map<string, User>, u: User, username: Option<string>)
  {
    Renames(u, username) && exists id :: id in users && users[id].username == username.value
  }

  /**
   * The user as `updateUserProfile` saves it: the username changes only to a
   * non-empty different name, the phone number exactly when one is provided, the
   * password exactly when the new one is non-empty; email and token stay.
   */
  function SavedProfile(u: User, username: Option<string>, phoneNumber: Option<Value>, password: Option<string>)
    : (s: User)
    ensures s.username == (if Renames(u, username) then username.value else u.username)
    ensures s.phoneNumber != u.phoneNumber ==> phoneNumber.Some? && s.phoneNumber == phoneNumber
    ensures phoneNumber.Some? ==> s.phoneNumber == phoneNumber
    ensures s.password != u.password ==> password.Some? && password.value != "" && s.password == password.value
    ensures password.Some? && password.value != "" ==> s.password == password.value
    ensures s.email == u.email && s.refreshToken == u.refreshToken
  {
    var u1 := if Renames(u, username) then u.(username := username.value) else u;
    var u2 := if phoneNumber.Some? then u1.(phoneNumber := phoneNumber) else u1;
    if password.Some? && password.value != "" then u2.(password := password.value) else u2
  }

  /** A rename that is saved keeps usernames unique. */
  lemma SavedKeepsUsernamesUnique(users: map<string, User>, id: string, username: Option<string>,
                                  phoneNumber: Option<Value>, password: Option<string>)
    requires id in users
    requires forall a, b :: a in users && b in users && a != b ==> users[a].username != users[b].username
    requires !UsernameClash(users, users[id], username)
    ensures var next := users[id := SavedProfile(users[id], username, phoneNumber, password)];
      forall a, b :: a in next && b in next && a != b ==> next[a].username != next[b].username
  {
  }

  // ---------------------------------------------------------------------------
  // The user collection

  class UserStore {
    var users: map<string, User>
    /** The collection's natural order, which `findOne` follows. */
    var order: seq<string>

    /** Every user is in the order once; emails and usernames are unique. */
    predicate Valid()
      reads this
    {
      && Ordered(users, order)
      && (forall i, j :: 0 <= i < j < |order| ==> order[i] != order[j])
      && (forall a, b :: a in users && b in users && a != b ==> users[a].email != users[b].email)
      && (forall a, b :: a in users && b in users && a != b ==> users[a].username != users[b].username)
    }

    constructor()
      ensures Valid() && users == map[] && order == []
    {
      users := map[];
      order := [];
    }

    /**
     * `registerUser`: 400 for a taken email, checked first, then 400 for a taken
     * username; otherwise the user is stored with a digest of the new refresh
     * token (never the token itself), the token goes into the cookie and the
     * answer is 201 with the access token.
     */
    method RegisterUser(username: string, email: string, password: string, newId: string,
                        accessToken: string, refreshToken: string, salt: nat)
      returns (r: AuthReply, cookie: CookieAction)
      requires Valid() && newId !in users
      modifies this
      ensures Valid()
      ensures (exists id :: id in old(users) && old(users)[id].email == email) ==>
        r == Json(400, EmailTaken) && cookie == KeepCookie && users == old(users) && order == old(order)
      ensures ((forall id :: id in old(users) ==> old(users)[id].email != email)
               && (exists id :: id in old(users) && old(users)[id].username == username)) ==>
        r == Json(400, UsernameTaken) && cookie == KeepCookie && users == old(users) && order == old(order)
      ensures (forall id :: id in old(users) ==> old(users)[id].email != email && old(users)[id].username != username) ==>
        && r == WithToken(201, Registered, accessToken) && cookie == SetCookie(refreshToken)
        && users == old(users)[newId := User(username, email, password, None, Some(Digest(refreshToken, salt)))]
        && order == old(order) + [newId]
    {
      if exists id :: id in users && users[id].email == email {
        return Json(400, EmailTaken), KeepCookie;
      }
      if exists id :: id in users && users[id].username == username {
        return Json(400, UsernameTaken), KeepCookie;
      }
      users := users[newId := User(username, email, password, None, Some(Digest(refreshToken, salt)))];
      order := order + [newId];
      r, cookie := WithToken(201, Registered, accessToken), SetCookie(refreshToken);
    }

    /**
     * `loginUser`: the same 400 for an unknown email and for a wrong password,
     * with nothing written; otherwise the user's digest is replaced by one of the
     * new refresh token. `passwordMatches` is the comparison against the stored
     * password.
     */
    method LoginUser(email: string, password: string, passwordMatches: (string, string) -> bool,
                     accessToken: string, refreshToken: string, salt: nat)
      returns (r: AuthReply, cookie: CookieAction)
      requires Valid()
      modifies this
      ensures Valid() && order == old(order)
      ensures (forall id :: id in old(users) ==> !(old(users)[id].email == email && passwordMatches(password, old(users)[id].password))) ==>
        r == Json(400, InvalidCredentials) && cookie == KeepCookie && users == old(users)
      ensures forall id :: id in old(users) && old(users)[id].email == email && passwordMatches(password, old(users)[id].password) ==>
        && r == WithToken(200, LoggedIn, accessToken) && cookie == SetCookie(refreshToken)
        && users == old(users)[id := old(users)[id].(refreshToken := Some(Digest(refreshToken, salt)))]
    {
      if !exists id :: id in users && users[id].email == email {
        return Json(400, InvalidCredentials), KeepCookie;
      }
      var id :| id in users && users[id].email == email;
      if !passwordMatches(password, users[id].password) {
        return Json(400, InvalidCredentials), KeepCookie;
      }
      users := users[id := users[id].(refreshToken := Some(Digest(refreshToken, salt)))];
      r, cookie := WithToken(200, LoggedIn, accessToken), SetCookie(refreshToken);
    }

    /**
     * `updateUserProfile`: 404 for a missing user; a non-empty, different username
     * that another user has gives 400 and nothing is saved; otherwise the
     * username changes when non-empty and different, the phone number when it is
     * provided, the password when non-empty, and the saved profile is returned.
     */
    method UpdateUserProfile(userId: string, username: Option<string>, phoneNumber: Option<Value>,
                             password: Option<string>)
      returns (r: AuthReply)
      requires Valid()
      modifies this
      ensures Valid() && order == old(order) && users.Keys == old(users).Keys
      ensures userId !in old(users) ==> r == Json(404, UserNotFound) && users == old(users)
      ensures userId in old(users) && UsernameClash(old(users), old(users)[userId], username) ==>
        r == Json(400, UsernameTaken) && users == old(users)
      ensures userId in old(users) && !UsernameClash(old(users), old(users)[userId], username) ==>
        var saved := SavedProfile(old(users)[userId], username, phoneNumber, password);
        && users == old(users)[userId := saved]
        && r == ProfileOf(userId, saved.username, saved.email, saved.phoneNumber)
    {
      if userId !in users {
        return Json(404, UserNotFound);
      }
      if Renames(users[userId], username) && exists id :: id in users && users[id].username == username.value {
        return Json(400, UsernameTaken);
      }
      var u := SavedProfile(users[userId], username, phoneNumber, password);
      SavedKeepsUsernamesUnique(users, userId, username, phoneNumber, password);
      users := users[userId := u];
      r := ProfileOf(userId, u.username, u.email, u.phoneNumber);
    }

    /** `refreshAccessToken` on the store; it reads and never writes. */
    method RefreshAccessToken(cookie: Option<string>, decoded: Option<string>, accessToken: string)
      returns (r: AuthReply, c: CookieAction)
      ensures (r, c) == Refresh(users, cookie, decoded, accessToken)
    {
      r, c := Refresh(users, cookie, decoded, accessToken).0, Refresh(users, cookie, decoded, accessToken).1;
    }

    /** `logoutUser` as written. */
    method LogoutUserAsWritten(cookie: Option<string>) returns (r: AuthReply, c: CookieAction)
      requires Valid()
      modifies this
      ensures Valid() && order == old(order)
      ensures LogoutResult(r, c, users) == LogoutAsWritten(old(users), old(order), cookie)
    {
      var res := LogoutAsWritten(users, order, cookie);
      users := res.users;
      r, c := res.reply, res.cookie;
    }

    /** `logoutUser` looking up the user that holds the cookie's token. */
    method LogoutUser(cookie: Option<string>) returns (r: AuthReply, c: CookieAction)
      requires Valid()
      modifies this
      ensures Valid() && order == old(order)
      ensures LogoutResult(r, c, users) == Logout(old(users), old(order), cookie)
    {
      var res := Logout(users, order, cookie);
      users := res.users;
      r, c := res.reply, res.cookie;
    }
  }
}
