/** Registration with a unique email, and the credential check of login. */
module Auth {
  import opened Wrappers
  import opened Responses
  import opened Documents

  datatype UserCreate = UserCreate(email: string, password: string)
  datatype LoginRequest = LoginRequest(email: string, password: string)

  /** The `data` member of the successful responses. */
  datatype AuthData =
    | Registered(userId: string)
    | LoggedIn(userId: string, accessToken: string, tokenType: string)

  /** The `{"email": email}` query on `users`. */
  function EmailIs(email: string): UserDoc -> bool
  {
    (u: UserDoc) => u.email == email
  }

  predicate UniqueEmails(docs: seq<UserDoc>)
  {
    forall i, j :: 0 <= i < j < |docs| ==> docs[i].email != docs[j].email
  }

  /** The local account `register_user` stores: the password only through `hash`. */
  function NewLocalUser(id: string, payload: UserCreate, hash: string -> string): (u: UserDoc)
    ensures u.email == payload.email && u.passwordHash == hash(payload.password)
    ensures u.oauthProvider == "local" && !u.isVerified
  {
    UserDoc(id, payload.email, hash(payload.password), "local", false)
  }

  /**
   * `register_user`: 409 and no insert when the email is taken; otherwise a local, unverified
   * user with the hashed password, whose new id `newId` is returned.
   */
  method RegisterUser(users: Collection<UserDoc>, payload: UserCreate, hash: string -> string, newId: string)
    returns (resp: Response<AuthData>)
    modifies users
    ensures FindFirst(old(users.docs), EmailIs(payload.email)) < |old(users.docs)| ==>
              resp == ApiResponse("Email already registered", 409, None) && users.docs == old(users.docs)
    ensures FindFirst(old(users.docs), EmailIs(payload.email)) == |old(users.docs)| ==>
              && users.docs == old(users.docs) + [NewLocalUser(newId, payload, hash)]
              && resp == ApiResponse("User registered successfully", 201, Some(Registered(newId)))
    ensures UniqueEmails(old(users.docs)) ==> UniqueEmails(users.docs)
  {
    var existing := FindFirst(users.docs, EmailIs(payload.email));
    if existing < |users.docs| {
      return ApiResponse("Email already registered", 409, None);
    }
    if UniqueEmails(users.docs) {
      NewEmailKeepsUnique(users.docs, NewLocalUser(newId, payload, hash));
    }
    users.InsertOne(NewLocalUser(newId, payload, hash));
    resp := ApiResponse("User registered successfully", 201, Some(Registered(newId)));
  }

  lemma {:induction false} NewEmailKeepsUnique(docs: seq<UserDoc>, u: UserDoc)
    requires UniqueEmails(docs)
    requires FindFirst(docs, EmailIs(u.email)) == |docs|
    ensures UniqueEmails(docs + [u])
  {
    var all := docs + [u];
    forall i, j | 0 <= i < j < |all|
      ensures all[i].email != all[j].email
    {
      if j == |docs| {
        assert !EmailIs(u.email)(docs[i]);
      }
    }
  }

  /** Once an email is registered, registering it again is answered with 409. */
  lemma {:induction false} RegisteredEmailIsTaken(docs: seq<UserDoc>, u: UserDoc)
    ensures FindFirst(docs + [u], EmailIs(u.email)) < |docs + [u]|
  {
    if docs != [] && !EmailIs(u.email)(docs[0]) {
      assert (docs + [u])[1..] == docs[1..] + [u];
      RegisteredEmailIsTaken(docs[1..], u);
    }
  }

  const InvalidCredentials: string := "Invalid email or password"

  /**
   * `login_user`: 401 unless a user with the email exists and `verify(password, hash)` accepts
   * the stored hash; then the user's id and `token(email)`, a bearer token.
   */
  method LoginUser(users: seq<UserDoc>, payload: LoginRequest, verify: (string, string) -> bool,
                   token: string -> string)
    returns (resp: Response<AuthData>)
    ensures var k := FindFirst(users, EmailIs(payload.email));
            if k == |users| || !verify(payload.password, users[k].passwordHash) then
              resp == ApiResponse(InvalidCredentials, 401, None)
            else
              && users[k].email == payload.email
              && resp == ApiResponse("Login successful", 200,
                                     Some(LoggedIn(users[k].id, token(users[k].email), "bearer")))
  {
    var k := FindFirst(users, EmailIs(payload.email));
    if k == |users| || !verify(payload.password, users[k].passwordHash) {
      return ApiResponse(InvalidCredentials, 401, None);
    }
    resp := ApiResponse("Login successful", 200, Some(LoggedIn(users[k].id, token(users[k].email), "bearer")));
  }

  /**
   * With unique emails, login succeeds exactly when some stored user has the email and a hash
   * the password verifies against, and it is that user who is logged in.
   */
  lemma {:induction false} LoginSucceedsIff(users: seq<UserDoc>, email: string, password: string, verify: (string, string) -> bool)
    requires UniqueEmails(users)
    ensures var k := FindFirst(users, EmailIs(email));
            (k < |users| && verify(password, users[k].passwordHash)) <==>
            (exists u :: u in users && u.email == email && verify(password, u.passwordHash))
    ensures forall u :: u in users && u.email == email ==> users[FindFirst(users, EmailIs(email))] == u
  {
    var k := FindFirst(users, EmailIs(email));
    forall u | u in users && u.email == email
      ensures k < |users| && users[k] == u
    {
      var i :| 0 <= i < |users| && users[i] == u;
      assert EmailIs(email)(users[i]);
    }
    if k < |users| && verify(password, users[k].passwordHash) {
      assert users[k] in users;
    }
  }

  /**
   * A user who has just registered can log in with the same password, provided `verify` accepts
   * a password against its own hash.
   */
  lemma {:induction false} RegisterThenLogin(docs: seq<UserDoc>, id: string, payload: UserCreate, hash: string -> string,
                          verify: (string, string) -> bool)
    requires UniqueEmails(docs) && FindFirst(docs, EmailIs(payload.email)) == |docs|
    requires verify(payload.password, hash(payload.password))
    ensures var all := docs + [NewLocalUser(id, payload, hash)];
            var k := FindFirst(all, EmailIs(payload.email));
            k < |all| && verify(payload.password, all[k].passwordHash) && all[k].id == id
  {
    var u := NewLocalUser(id, payload, hash);
    NewEmailKeepsUnique(docs, u);
    LoginSucceedsIff(docs + [u], payload.email, payload.password, verify);
    assert u in docs + [u];
  }
}
