/** The user handlers: registration, login, logout, refresh-token rotation and
    password change, as transitions of the user collection. Each user keeps at
    most one refresh token; issuing a pair overwrites it, logout clears it. */
module UserControllers {
  import opened Api
  import opened Text

  /** The services the handlers call but that live elsewhere: signing access
      and refresh tokens (the second argument is the issue counter, which makes
      each issued token a fresh value), verifying a refresh token (None when
      verification throws), hashing a password and comparing a candidate
      password with a stored hash. */
  datatype Crypto = Crypto(
    signAccess: (ObjectId, nat) -> string,
    signRefresh: (ObjectId, nat) -> string,
    verifyRefresh: string -> Option<ObjectId>,
    hashPassword: string -> string,
    isPasswordCorrect: (string, string) -> bool)

  /** A stored user; `password` holds the hash. */
  datatype User = User(
    _id: ObjectId,
    username: string,
    email: string,
    password: string,
    refreshToken: Option<string>)

  /** A user as the handlers answer with it: selected with
      `-password -refreshToken`, so it has neither. */
  datatype Profile = Profile(_id: ObjectId, username: string, email: string)

  function ProfileOf(u: User): Profile {
    Profile(u._id, u.username, u.email)
  }

  /** The answer carries no secret: users that differ only in password hash
      and refresh token give the same profile. */
  lemma ProfileHidesSecrets(u: User, password: string, refreshToken: Option<string>)
    ensures ProfileOf(u.(password := password, refreshToken := refreshToken)) == ProfileOf(u)
  {
  }

  datatype RegisterBody = RegisterBody(username: Option<string>, email: Option<string>, password: Option<string>)
  datatype LoginBody = LoginBody(email: Option<string>, username: Option<string>, password: Option<string>)
  datatype TokenPair = TokenPair(accessToken: string, refreshToken: string)

  /** A successful login: the profile in the body, the pair in the cookies. */
  datatype LoginData = LoginData(user: Profile, tokens: TokenPair)

  const UsernameRequired := ApiError(400, "username is required")
  const EmailRequired := ApiError(400, "email is required")
  const PasswordRequired := ApiError(400, "password is required")
  const PasswordTooShort := ApiError(400, "password must be atleast of 6 characters")
  const UserExists := ApiError(409, "User with email or username already exists")
  const IdentifierRequired := ApiError(400, "username or email is required")
  const UserNotFound := ApiError(404, "User not found")
  const LoginPasswordRequired := ApiError(400, "Password is required")
  const InvalidCredentials := ApiError(401, "invalid credentials")
  const TokenFailure := ApiError(500, "Something went wrong while generating tokens")
  const UnauthorizedRequest := ApiError(401, "Unauthorized request")
  const InvalidRefreshToken := ApiError(401, "Invalid or expired refresh token")
  const InvalidOldPassword := ApiError(400, "Invalid old Password")

  /** The registration checks, in the order the handler makes them; None when
      all pass. */
  function RegistrationError(body: RegisterBody): (r: Option<Error>)
    ensures r.None? <==>
      !Blank(body.username) && !Blank(body.email) && IsTruthy(body.password) && |body.password.value| >= 6
    ensures Blank(body.username) ==> r == Some(UsernameRequired)
    ensures !Blank(body.username) && Blank(body.email) ==> r == Some(EmailRequired)
    ensures !Blank(body.username) && !Blank(body.email) && !IsTruthy(body.password) ==>
      r == Some(PasswordRequired)
    ensures (!Blank(body.username) && !Blank(body.email) && IsTruthy(body.password)
             && |body.password.value| < 6) ==> r == Some(PasswordTooShort)
    ensures r.Some? ==> r.value.ApiError? && r.value.statusCode == 400
  {
    if Blank(body.username) then Some(UsernameRequired)
    else if Blank(body.email) then Some(EmailRequired)
    else if !IsTruthy(body.password) then Some(PasswordRequired)
    else if |body.password.value| < 6 then Some(PasswordTooShort)
    else None
  }

  /** `$or: [{username}, {email}]` for a registration: some user already has
      the username or the email. */
  predicate Taken(users: map<ObjectId, User>, username: string, email: string) {
    exists id :: id in users && (users[id].username == username || users[id].email == email)
  }

  /** The duplicate check asks about stored users, whatever keys they are
      stored under. */
  lemma TakenByStoredUser(users: map<ObjectId, User>, username: string, email: string)
    ensures Taken(users, username, email) <==>
      exists u :: u in users.Values && (u.username == username || u.email == email)
  {
    if Taken(users, username, email) {
      var id :| id in users && (users[id].username == username || users[id].email == email);
      assert users[id] in users.Values;
    }
  }

  /** `$or: [{username}, {email}]` for a login; an absent field matches nothing. */
  predicate LoginMatches(body: LoginBody, u: User): (r: bool)
    ensures r <==> body.username == Some(u.username) || body.email == Some(u.email)
  {
    || (body.username.Some? && body.username.value == u.username)
    || (body.email.Some? && body.email.value == u.email)
  }

  /** `User.findOne({$or: [{username}, {email}]})` finds someone. */
  predicate AnyLoginMatch(users: map<ObjectId, User>, body: LoginBody) {
    exists id :: id in users && LoginMatches(body, users[id])
  }

  /** Login finds a user exactly when some stored user has the username or
      the email of the body; a body with neither finds no one. */
  lemma AnyLoginMatchByStoredUser(users: map<ObjectId, User>, body: LoginBody)
    ensures AnyLoginMatch(users, body) <==> exists u :: u in users.Values && LoginMatches(body, u)
    ensures body.username.None? && body.email.None? ==> !AnyLoginMatch(users, body)
  {
    if AnyLoginMatch(users, body) {
      var id :| id in users && LoginMatches(body, users[id]);
      assert users[id] in users.Values;
    }
  }

  /** `req.cookies.refreshToken || req.body.refreshToken`. */
  function IncomingRefreshToken(cookie: Option<string>, bodyToken: Option<string>): (r: Option<string>)
    ensures IsTruthy(cookie) ==> r == cookie
    ensures !IsTruthy(cookie) ==> r == bodyToken
    ensures IsTruthy(r) <==> IsTruthy(cookie) || IsTruthy(bodyToken)
  {
    if IsTruthy(cookie) then cookie else bodyToken
  }

  /** The refresh check: the token verifies, names an existing user, and is
      the very token stored on that user. */
  predicate RefreshAccepted(c: Crypto, users: map<ObjectId, User>, token: string) {
    var decoded := c.verifyRefresh(token);
    decoded.Some? && decoded.value in users && users[decoded.value].refreshToken == Some(token)
  }

  /** A token is accepted exactly when some stored user is the one it
      verifies to and holds exactly that token. */
  lemma RefreshAcceptedByHolder(c: Crypto, users: map<ObjectId, User>, token: string)
    ensures RefreshAccepted(c, users, token) <==>
      exists id :: id in users && c.verifyRefresh(token) == Some(id) && users[id].refreshToken == Some(token)
  {
    if RefreshAccepted(c, users, token) {
      var id := c.verifyRefresh(token).value;
      assert id in users && c.verifyRefresh(token) == Some(id) && users[id].refreshToken == Some(token);
    }
  }

  /** The stored comparison accepts the password whose hash was stored. */
  ghost predicate HashesCheck(c: Crypto) {
    forall p :: c.isPasswordCorrect(p, c.hashPassword(p))
  }

  /** Issued refresh tokens are non-empty, verify to their user, and differ
      for different issues to the same user. */
  ghost predicate RefreshTokensSound(c: Crypto) {
    && (forall u, n :: c.signRefresh(u, n) != "" && c.verifyRefresh(c.signRefresh(u, n)) == Some(u))
    && (forall u, m, n :: c.signRefresh(u, m) == c.signRefresh(u, n) ==> m == n)
  }

  /** Every user is stored under its own identifier, and each username and
      each email belongs to one user only. */
  ghost predicate ValidTable(users: map<ObjectId, User>) {
    && (forall id :: id in users ==> users[id]._id == id)
    && (forall a, b :: a in users && b in users && a != b ==>
          users[a].username != users[b].username && users[a].email != users[b].email)
  }

  /** Changing a user's password or refresh token keeps the table valid. */
  lemma ReplaceKeepsValid(users: map<ObjectId, User>, id: ObjectId, u: User)
    requires ValidTable(users) && id in users
    requires u._id == id && u.username == users[id].username && u.email == users[id].email
    ensures ValidTable(users[id := u])
  {
    var users' := users[id := u];
    forall a, b | a in users' && b in users' && a != b
      ensures users'[a].username != users'[b].username && users'[a].email != users'[b].email
    {
      assert users'[a].username == users[a].username && users'[a].email == users[a].email;
      assert users'[b].username == users[b].username && users'[b].email == users[b].email;
    }
  }

  /** Adding a user whose username and email are both unused keeps the table
      valid. */
  lemma InsertKeepsValid(users: map<ObjectId, User>, u: User)
    requires ValidTable(users) && u._id !in users
    requires !Taken(users, u.username, u.email)
    ensures ValidTable(users[u._id := u])
  {
  }

  /** The user collection and the number of token pairs issued so far. */
  class UserStore {
    var users: map<ObjectId, User>
    var issued: nat
    const crypto: Crypto

    ghost predicate Valid()
      reads this
    {
      ValidTable(users)
    }

    constructor (crypto: Crypto)
      ensures Valid() && users == map[] && issued == 0 && this.crypto == crypto
    {
      users := map[];
      issued := 0;
      this.crypto := crypto;
    }

    /** `generateAccessAndRefreshTokens`: sign a fresh pair and store the
        refresh token on the user, replacing the previous one. The user's
        absence is reported as the generic 500 the catch block throws. */
    method GenerateAccessAndRefreshTokens(userId: ObjectId) returns (r: Result<TokenPair>)
      requires Valid()
      modifies this
      ensures Valid()
      ensures userId !in old(users) ==>
        r == Err(TokenFailure) && users == old(users) && issued == old(issued)
      ensures userId in old(users) ==>
        && r == Ok(TokenPair(crypto.signAccess(userId, old(issued)), crypto.signRefresh(userId, old(issued))))
        && users == old(users)[userId := old(users)[userId].(refreshToken := Some(r.value.refreshToken))]
        && issued == old(issued) + 1
    {
      if userId !in users {
        return Err(TokenFailure);
      }
      var accessToken := crypto.signAccess(userId, issued);
      var refreshToken := crypto.signRefresh(userId, issued);
      ReplaceKeepsValid(users, userId, users[userId].(refreshToken := Some(refreshToken)));
      users := users[userId := users[userId].(refreshToken := Some(refreshToken))];
      issued := issued + 1;
      r := Ok(TokenPair(accessToken, refreshToken));
    }

    /** `registerUser`: the field checks in order, then the duplicate check,
        then a new user under the identifier the database assigns. */
    method RegisterUser(body: RegisterBody, newId: ObjectId) returns (r: Result<Profile>)
      requires Valid() && newId !in users
      modifies this
      ensures Valid() && issued == old(issued)
      ensures RegistrationError(body).Some? ==> r == Err(RegistrationError(body).value) && users == old(users)
      ensures RegistrationError(body).None? && Taken(old(users), body.username.value, body.email.value) ==>
        r == Err(UserExists) && users == old(users)
      ensures RegistrationError(body).None? && !Taken(old(users), body.username.value, body.email.value) ==>
        && r == Ok(Profile(newId, body.username.value, body.email.value))
        && users == old(users)[newId := User(newId, body.username.value, body.email.value,
                                             crypto.hashPassword(body.password.value), None)]
    {
      if !IsTruthy(body.username) || Trim(body.username.value) == "" {
        return Err(UsernameRequired);
      }
      if !IsTruthy(body.email) || Trim(body.email.value) == "" {
        return Err(EmailRequired);
      }
      if !IsTruthy(body.password) {
        return Err(PasswordRequired);
      }
      if |body.password.value| < 6 {
        return Err(PasswordTooShort);
      }
      var username, email, password := body.username.value, body.email.value, body.password.value;
      if exists id | id in users :: users[id].username == username || users[id].email == email {
        return Err(UserExists);
      }
      var user := User(newId, username, email, crypto.hashPassword(password), None);
      InsertKeepsValid(users, user);
      users := users[newId := user];
      r := Ok(ProfileOf(user));
    }

    /** `loginUser`. When the username names one user and the email another,
        the store answers with either; `matched` is the one it answered with. */
    method LoginUser(body: LoginBody) returns (r: Result<LoginData>, ghost matched: Option<ObjectId>)
      requires Valid()
      modifies this
      ensures Valid()
      ensures r.Err? ==> users == old(users) && issued == old(issued)
      ensures !IsTruthy(body.username) && !IsTruthy(body.email) ==> r == Err(IdentifierRequired) && matched.None?
      ensures IsTruthy(body.username) || IsTruthy(body.email) ==>
        (matched.None? <==> !AnyLoginMatch(old(users), body))
      ensures (IsTruthy(body.username) || IsTruthy(body.email)) && matched.None? ==> r == Err(UserNotFound)
      ensures matched.Some? ==> matched.value in old(users) && LoginMatches(body, old(users)[matched.value])
      ensures matched.Some? && !IsTruthy(body.password) ==> r == Err(LoginPasswordRequired)
      ensures matched.Some? && IsTruthy(body.password)
              && !crypto.isPasswordCorrect(body.password.value, old(users)[matched.value].password) ==>
        r == Err(InvalidCredentials)
      ensures matched.Some? && IsTruthy(body.password)
              && crypto.isPasswordCorrect(body.password.value, old(users)[matched.value].password) ==>
        var id, n := matched.value, old(issued);
        && r == Ok(LoginData(ProfileOf(old(users)[id]), TokenPair(crypto.signAccess(id, n), crypto.signRefresh(id, n))))
        && users == old(users)[id := old(users)[id].(refreshToken := Some(crypto.signRefresh(id, n)))]
        && issued == n + 1
    {
      matched := None;
      if !IsTruthy(body.username) && !IsTruthy(body.email) {
        return Err(IdentifierRequired), matched;
      }
      if !exists id | id in users :: LoginMatches(body, users[id]) {
        return Err(UserNotFound), matched;
      }
      var id :| id in users && LoginMatches(body, users[id]);
      matched := Some(id);
      if !IsTruthy(body.password) {
        return Err(LoginPasswordRequired), matched;
      }
      if !crypto.isPasswordCorrect(body.password.value, users[id].password) {
        return Err(InvalidCredentials), matched;
      }
      var tokens := GenerateAccessAndRefreshTokens(id);
      r := Ok(LoginData(ProfileOf(users[id]), tokens.value));
    }

    /** `logoutUser`: clear the caller's stored refresh token; a caller no
        longer in the collection changes nothing. */
    method LogoutUser(callerId: ObjectId) returns (r: Result<()>)
      requires Valid()
      modifies this
      ensures Valid() && r == Ok(()) && issued == old(issued)
      ensures callerId in old(users) ==>
        users == old(users)[callerId := old(users)[callerId].(refreshToken := None)]
      ensures callerId !in old(users) ==> users == old(users)
    {
      if callerId in users {
        ReplaceKeepsValid(users, callerId, users[callerId].(refreshToken := None));
        users := users[callerId := users[callerId].(refreshToken := None)];
      }
      r := Ok(());
    }

    /** `refreshAccessToken`: accept only the refresh token currently stored on
        the user it names, and rotate it. */
    method RefreshAccessToken(cookie: Option<string>, bodyToken: Option<string>) returns (r: Result<TokenPair>)
      requires Valid()
      modifies this
      ensures Valid()
      ensures r.Err? ==> users == old(users) && issued == old(issued)
      ensures var incoming := IncomingRefreshToken(cookie, bodyToken);
        && (!IsTruthy(incoming) ==> r == Err(UnauthorizedRequest))
        && (IsTruthy(incoming) && crypto.verifyRefresh(incoming.value).None? ==>
              r == Err(Uncaught("JsonWebTokenError")))
        && ((IsTruthy(incoming) && crypto.verifyRefresh(incoming.value).Some?
             && !RefreshAccepted(crypto, old(users), incoming.value)) ==> r == Err(InvalidRefreshToken))
        && (IsTruthy(incoming) && RefreshAccepted(crypto, old(users), incoming.value) ==>
              var id, n := crypto.verifyRefresh(incoming.value).value, old(issued);
              && r == Ok(TokenPair(crypto.signAccess(id, n), crypto.signRefresh(id, n)))
              && users == old(users)[id := old(users)[id].(refreshToken := Some(crypto.signRefresh(id, n)))]
              && issued == n + 1)
    {
      var incoming := IncomingRefreshToken(cookie, bodyToken);
      if !IsTruthy(incoming) {
        return Err(UnauthorizedRequest);
      }
      var decoded := crypto.verifyRefresh(incoming.value);
      if decoded.None? {
        return Err(Uncaught("JsonWebTokenError"));
      }
      if decoded.value !in users || users[decoded.value].refreshToken != incoming {
        return Err(InvalidRefreshToken);
      }
      r := GenerateAccessAndRefreshTokens(decoded.value);
    }

    /** `changeCurrentPassword`: replace the stored password only when the old
        one matches. A caller no longer in the collection makes the handler
        call a method on null. */
    method ChangeCurrentPassword(callerId: ObjectId, oldPassword: string, newPassword: string)
      returns (r: Result<()>)
      requires Valid()
      modifies this
      ensures Valid() && issued == old(issued)
      ensures callerId !in old(users) ==> r == Err(Uncaught("TypeError")) && users == old(users)
      ensures callerId in old(users) && !crypto.isPasswordCorrect(oldPassword, old(users)[callerId].password) ==>
        r == Err(InvalidOldPassword) && users == old(users)
      ensures callerId in old(users) && crypto.isPasswordCorrect(oldPassword, old(users)[callerId].password) ==>
        && r == Ok(())
        && users == old(users)[callerId := old(users)[callerId].(password := crypto.hashPassword(newPassword))]
    {
      if callerId !in users {
        return Err(Uncaught("TypeError"));
      }
      if !crypto.isPasswordCorrect(oldPassword, users[callerId].password) {
        return Err(InvalidOldPassword);
      }
      ReplaceKeepsValid(users, callerId, users[callerId].(password := crypto.hashPassword(newPassword)));
      users := users[callerId := users[callerId].(password := crypto.hashPassword(newPassword))];
      r := Ok(());
    }
  }

  /** Two logins of the same user: the refresh token of the first no longer
      refreshes, since the second overwrote it. */
  method SecondLoginRevokesFirst(store: UserStore, first: LoginBody, second: LoginBody)
    returns (a: Result<LoginData>, b: Result<LoginData>, refreshed: Result<TokenPair>)
    requires store.Valid() && RefreshTokensSound(store.crypto)
    modifies store
    ensures a.Ok? && b.Ok? && a.value.user._id == b.value.user._id ==> refreshed == Err(InvalidRefreshToken)
  {
    ghost var m1, m2;
    a, m1 := store.LoginUser(first);
    b, m2 := store.LoginUser(second);
    var token := if a.Ok? then a.value.tokens.refreshToken else "";
    refreshed := store.RefreshAccessToken(Some(token), None);
  }

  /** Register a user on an empty collection: any non-blank username and
      email and any password of at least 6 characters are accepted, and the
      collection then holds exactly that user, without a refresh token. */
  method RegisterFirst(crypto: Crypto, newId: ObjectId, username: string, email: string, password: string)
    returns (store: UserStore, registered: Result<Profile>)
    requires !Blank(Some(username)) && !Blank(Some(email)) && |password| >= 6
    ensures fresh(store) && store.Valid() && store.crypto == crypto && store.issued == 0
    ensures registered == Ok(Profile(newId, username, email))
    ensures store.users == map[newId := User(newId, username, email, crypto.hashPassword(password), None)]
  {
    store := new UserStore(crypto);
    var body := RegisterBody(Some(username), Some(email), Some(password));
    assert RegistrationError(body).None?;
    assert !Taken(store.users, username, email);
    registered := store.RegisterUser(body, newId);
  }

  /** Register a user on an empty collection, then log in by username: both
      succeed, and the user holds the first refresh token issued. */
  method RegisterThenLogIn(crypto: Crypto, newId: ObjectId, username: string, email: string, password: string)
    returns (store: UserStore, registered: Result<Profile>, loggedIn: Result<LoginData>)
    requires HashesCheck(crypto)
    requires !Blank(Some(username)) && !Blank(Some(email)) && |password| >= 6
    ensures fresh(store) && store.Valid() && store.crypto == crypto
    ensures registered == Ok(Profile(newId, username, email))
    ensures loggedIn == Ok(LoginData(registered.value, TokenPair(crypto.signAccess(newId, 0), crypto.signRefresh(newId, 0))))
    ensures newId in store.users && store.users[newId].refreshToken == Some(crypto.signRefresh(newId, 0))
    ensures store.issued == 1
  {
    store, registered := RegisterFirst(crypto, newId, username, email, password);
    var login := LoginBody(None, Some(username), Some(password));
    assert LoginMatches(login, store.users[newId]);
    assert crypto.isPasswordCorrect(password, store.users[newId].password);
    ghost var matched;
    loggedIn, matched := store.LoginUser(login);
    assert matched == Some(newId);
  }

  /** Register, log in, refresh, then reuse the old token, log out and refresh
      with the latest one: only the first refresh succeeds. */
  method SessionScenario(crypto: Crypto, newId: ObjectId, username: string, email: string, password: string)
    returns (registered: Result<Profile>, loggedIn: Result<LoginData>, refreshed: Result<TokenPair>,
             reused: Result<TokenPair>, afterLogout: Result<TokenPair>)
    requires HashesCheck(crypto) && RefreshTokensSound(crypto)
    requires !Blank(Some(username)) && !Blank(Some(email)) && |password| >= 6
    ensures registered == Ok(Profile(newId, username, email))
    ensures loggedIn.Ok? && loggedIn.value.user == registered.value
    ensures refreshed.Ok?
    ensures reused == Err(InvalidRefreshToken)
    ensures afterLogout == Err(InvalidRefreshToken)
  {
    var store;
    store, registered, loggedIn := RegisterThenLogIn(crypto, newId, username, email, password);
    var first := loggedIn.value.tokens.refreshToken;
    refreshed := store.RefreshAccessToken(Some(first), None);
    reused := store.RefreshAccessToken(None, Some(first));
    var _ := store.LogoutUser(newId);
    afterLogout := store.RefreshAccessToken(Some(refreshed.value.refreshToken), None);
  }
}
