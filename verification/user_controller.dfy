/** The sign-up and sign-in endpoints: each checks the stored users, and on
    success binds the caller's session to the account and stores it. */
module UserController {
  import opened Wrappers
  import opened Seqs
  import opened Hex
  import opened ServerRuntime
  import opened Users
  import opened Sessions
  import opened Storage

  datatype UserCreation = UserCreation(username: string, displayName: string, password: string)

  datatype UserLogin = UserLogin(username: string, password: string)

  /** What a successful call leaves behind: the stores, the caller's
      session and the account. */
  datatype Signed = Signed(db: Db, session: Session, user: User)

  function UsernameKey(u: User): string
  {
    u.username
  }

  function HasUsername(name: string): User -> bool
  {
    (u: User) => u.username == name
  }

  /** Everything after the duplicate check: create the user with the given
      id and salt, save it, bind the session and store the session. */
  function CreateUserAfterCheck(rejected: bool, db: Db, session: Session, data: UserCreation,
                                userId: string, salt: seq<byte>, prims: Primitives)
    : (r: Result<Signed, Exception>)
    ensures rejected <==> r.Err?
    ensures r.Err? ==> r.error == MethodNotAllowed("The desired username already exists")
    ensures r.Ok? ==>
              r.value.user.id == userId && r.value.user.username == data.username &&
              r.value.user.displayName == data.displayName &&
              Verify(r.value.user, data.password, prims) == Ok(true) &&
              UserById(r.value.db.users, userId) == Some(r.value.user) &&
              r.value.session == session.(userId := Some(userId)) &&
              session.id in r.value.db.sessions && r.value.db.sessions[session.id] == r.value.session &&
              r.value.db.projects == db.projects
  {
    if rejected then Err(MethodNotAllowed("The desired username already exists"))
    else
      var created := CreateUser(userId, data.username, data.displayName, data.password, salt, prims);
      var bound := session.(userId := Some(created.id));
      Ok(Signed(StoreSession(SaveUser(db, created), bound), bound, created))
  }

  /** `create_user` as written: the duplicate test `len(existing) >= 0`
      holds for every list, so every request is refused and nothing is stored. */
  function CreateUserAsWritten(db: Db, session: Session, data: UserCreation,
                               userId: string, salt: seq<byte>, prims: Primitives)
    : (r: Result<Signed, Exception>)
    ensures r == Err(MethodNotAllowed("The desired username already exists"))
  {
    var existing := Filter(db.users, HasUsername(data.username));
    CreateUserAfterCheck(|existing| >= 0, db, session, data, userId, salt, prims)
  }

  /** `create_user` as evidently intended: refused exactly when the
      username is taken. */
  function CreateUserIntended(db: Db, session: Session, data: UserCreation,
                              userId: string, salt: seq<byte>, prims: Primitives)
    : (r: Result<Signed, Exception>)
    ensures r.Err? <==> exists u :: u in db.users && u.username == data.username
    ensures r.Err? ==> r.error == MethodNotAllowed("The desired username already exists")
    ensures r.Ok? ==>
              UserById(r.value.db.users, userId) == Some(r.value.user) &&
              r.value.user.username == data.username &&
              Verify(r.value.user, data.password, prims) == Ok(true) &&
              r.value.session.userId == Some(userId) &&
              session.id in r.value.db.sessions && r.value.db.sessions[session.id] == r.value.session
  {
    var existing := Filter(db.users, HasUsername(data.username));
    assert |existing| > 0 <==> exists u :: u in db.users && u.username == data.username by {
      if |existing| > 0 {
        assert existing[0] in existing;
      }
    }
    CreateUserAfterCheck(|existing| > 0, db, session, data, userId, salt, prims)
  }

  /** `login_user`: only the first stored user with the username is tried;
      an unknown username and a wrong password give the same NotFound. */
  function LoginUser(db: Db, session: Session, data: UserLogin, prims: Primitives)
    : (r: Result<Signed, Exception>)
    ensures Find(db.users, UsernameKey, data.username).None? ==>
              r == Err(NotFound("Username or password is incorrect"))
    ensures Find(db.users, UsernameKey, data.username).Some? ==>
              var u := Find(db.users, UsernameKey, data.username).value;
              match Verify(u, data.password, prims)
              case Err(e) => r == Err(e)
              case Ok(false) => r == Err(NotFound("Username or password is incorrect"))
              case Ok(true) =>
                r.Ok? && r.value.user == u && r.value.session == session.(userId := Some(u.id)) &&
                r.value.db == StoreSession(db, r.value.session)
  {
    match Find(db.users, UsernameKey, data.username)
    case None => Err(NotFound("Username or password is incorrect"))
    case Some(u) =>
      match Verify(u, data.password, prims)
      case Err(e) => Err(e)
      case Ok(false) => Err(NotFound("Username or password is incorrect"))
      case Ok(true) =>
        var bound := session.(userId := Some(u.id));
        Ok(Signed(StoreSession(db, bound), bound, u))
  }

  /** A signed-in session expands to the account that signed in. */
  lemma LoginBindsSession(db: Db, session: Session, data: UserLogin, prims: Primitives)
    requires LoginUser(db, session, data, prims).Ok?
    requires LoginUser(db, session, data, prims).value.user.id != ""
    requires forall i, j :: 0 <= i < j < |db.users| ==> db.users[i].id != db.users[j].id
    ensures var s := LoginUser(db, session, data, prims).value;
            s.user.username == data.username &&
            Expand(s.session, s.db.users).user == Some(Redact(s.user))
  {
    var s := LoginUser(db, session, data, prims).value;
    var u :| u in s.db.users && u.id == s.session.userId.value && Expand(s.session, s.db.users).user.value == Redact(u);
    var i :| 0 <= i < |db.users| && db.users[i] == u;
    var j :| 0 <= j < |db.users| && db.users[j] == s.user;
  }

  /** After a sign-up, signing in with the same username and password
      succeeds and yields the new account. */
  lemma {:induction false} SignUpThenLogin(db: Db, session: Session, data: UserCreation, userId: string,
                                           salt: seq<byte>, prims: Primitives, later: Session)
    requires CreateUserIntended(db, session, data, userId, salt, prims).Ok?
    ensures var s := CreateUserIntended(db, session, data, userId, salt, prims).value;
            var l := LoginUser(s.db, later, UserLogin(data.username, data.password), prims);
            l.Ok? && l.value.user == s.user
  {
    var s := CreateUserIntended(db, session, data, userId, salt, prims).value;
    var users := s.db.users;
    var f := Find(users, UsernameKey, data.username);
    assert s.user in users;
    if f.None? {
      assert false;
    }
    assert f.value == s.user by {
      var v := f.value;
      assert v in users && v.username == data.username;
      if v != s.user {
        assert false;
      }
    }
  }
}
