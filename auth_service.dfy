/** The older back end's login (src/app/api/modules/auth/service.py): the
    guard sequence in front of token issue. The users are the rows the
    database returns, in its order; bcrypt's `checkpw` and the JWT service
    are passed in. */
module AuthService {
  import opened Wrappers
  import opened Users

  const BadCredentials := HttpError(401, "Incorrect username or password")

  datatype TokenPair = TokenPair(accessToken: string, refreshToken: string)

  /** `users.get_all(limit=1, filters={"username": ...})`, then `users[0]`. */
  function FirstByUsername(rows: seq<User>, username: string): (r: Option<User>)
    ensures r.Some? ==> r.value in rows && r.value.username == username
    ensures r.None? ==> forall u :: u in rows ==> u.username != username
  {
    if rows == [] then None
    else if rows[0].username == username then Some(rows[0])
    else FirstByUsername(rows[1..], username)
  }

  /** `login`: 401 for a missing or inactive user before the password is
      checked, the same 401 for a wrong password, tokens otherwise. */
  function Login(rows: seq<User>, username: string, password: string,
                 checkpw: (string, string) -> bool, issue: User -> TokenPair): Result<TokenPair, HttpError>
  {
    var user := FirstByUsername(rows, username);
    if user.None? || !user.value.isActive then Failure(BadCredentials)
    else if !checkpw(password, user.value.password) then Failure(BadCredentials)
    else Success(issue(user.value))
  }

  /** Only the first row with the username counts: a later row with the
      same name is never tried. */
  lemma {:induction false} FirstByUsernameIsFirst(rows: seq<User>, username: string, i: nat)
    requires i < |rows| && rows[i].username == username
    requires forall j :: 0 <= j < i ==> rows[j].username != username
    ensures FirstByUsername(rows, username) == Some(rows[i])
  {
    if i > 0 {
      assert forall j :: 0 <= j < i - 1 ==> rows[1..][j] == rows[j + 1];
      FirstByUsernameIsFirst(rows[1..], username, i - 1);
    }
  }

  /** Tokens are issued exactly for the first user with that name when
      that user is active and the password verifies; every failure is the
      same 401, so the reply does not tell which check failed. */
  lemma LoginSpec(rows: seq<User>, username: string, password: string,
                  checkpw: (string, string) -> bool, issue: User -> TokenPair)
    ensures Login(rows, username, password, checkpw, issue).Success? <==>
              var u := FirstByUsername(rows, username);
              u.Some? && u.value.isActive && checkpw(password, u.value.password)
    ensures Login(rows, username, password, checkpw, issue).Success? ==>
              Login(rows, username, password, checkpw, issue).value == issue(FirstByUsername(rows, username).value)
    ensures Login(rows, username, password, checkpw, issue).Failure? ==>
              Login(rows, username, password, checkpw, issue).error == BadCredentials
  {
  }

  /** A missing or inactive user is refused whatever `checkpw` would say:
      the password check is never reached. */
  lemma NoPasswordCheckForUnknownUsers(rows: seq<User>, username: string, password: string,
                                       checkpw: (string, string) -> bool, checkpw': (string, string) -> bool,
                                       issue: User -> TokenPair)
    requires FirstByUsername(rows, username).None? || !FirstByUsername(rows, username).value.isActive
    ensures Login(rows, username, password, checkpw, issue) == Login(rows, username, password, checkpw', issue) == Failure(BadCredentials)
  {
  }
}
