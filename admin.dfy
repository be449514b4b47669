/**
 * The administrator session flag (index.php:118-137) and the check that
 * every admin page makes before doing anything (index.php:453, 470, 508,
 * 570, 635, 648).
 *
 * `password_verify` is a library call whose algorithm is not part of this
 * model: it is passed in as the function `verify`.
 */
module Admin {
  import opened Wrappers

  /** A row of the `users` table, as far as the login reads it. */
  datatype User = User(id: int, username: string, passwordHash: string, role: string)

  const AdminRole := "admin"

  /** The message shown on a failed login (index.php:129). */
  const InvalidCredentials := "Invalid admin credentials."

  /** The row `SELECT * FROM users WHERE username = ? AND role = 'admin'`
      fetches: the first such user in table order, or none. */
  function FindAdmin(users: seq<User>, username: string): (r: Option<User>)
    ensures r.Some? ==> r.value in users && r.value.username == username && r.value.role == AdminRole
    ensures r.None? <==> forall u :: u in users ==> !(u.username == username && u.role == AdminRole)
  {
    if users == [] then None
    else if users[0].username == username && users[0].role == AdminRole then Some(users[0])
    else FindAdmin(users[1..], username)
  }

  /** The condition at index.php:125: an admin row was found and the
      password verifies against its stored hash. */
  predicate LoginSucceeds(users: seq<User>, username: string, password: string,
                          verify: (string, string) -> bool)
  {
    match FindAdmin(users, username)
    case None => false
    case Some(u) => verify(password, u.passwordHash)
  }

  /** At most one admin row per username. */
  ghost predicate UniqueAdminNames(users: seq<User>)
  {
    forall u, v ::
      (u in users && v in users && u.role == AdminRole && v.role == AdminRole &&
       u.username == v.username) ==> u == v
  }

  /** A login succeeds only for an existing admin whose password verifies,
      and, when admin usernames are unique, always for one. */
  lemma LoginSucceedsIff(users: seq<User>, username: string, password: string,
                         verify: (string, string) -> bool)
    ensures LoginSucceeds(users, username, password, verify) ==>
              exists u :: u in users && u.username == username && u.role == AdminRole &&
                          verify(password, u.passwordHash)
    ensures UniqueAdminNames(users) ==>
              ((exists u :: u in users && u.username == username && u.role == AdminRole &&
                            verify(password, u.passwordHash))
               ==> LoginSucceeds(users, username, password, verify))
  {
    match FindAdmin(users, username)
    case None =>
    case Some(found) =>
      assert found in users;
  }

  /** The outcome of a login attempt: the new flag and the error message. */
  datatype LoginOutcome = LoginOutcome(loggedIn: bool, error: Option<string>)

  /** What a login request does to the flag (index.php:119-131): set on
      success; on failure left as it was, with the generic error message. */
  function Login(wasLoggedIn: bool, users: seq<User>, username: string, password: string,
                 verify: (string, string) -> bool): (r: LoginOutcome)
    ensures r.loggedIn && !wasLoggedIn ==>
              exists u :: u in users && u.username == username && u.role == AdminRole &&
                          verify(password, u.passwordHash)
    ensures r.error.None? <==> LoginSucceeds(users, username, password, verify)
    ensures r.error.Some? ==> r.error.value == InvalidCredentials && r.loggedIn == wasLoggedIn
    ensures r.error.None? ==> r.loggedIn
  {
    LoginSucceedsIff(users, username, password, verify);
    if LoginSucceeds(users, username, password, verify) then LoginOutcome(true, None)
    else LoginOutcome(wasLoggedIn, Some(InvalidCredentials))
  }

  /** The admin pages, each of which checks the flag first. */
  datatype AdminPage = Dashboard | FoodManagement | AddFood | EditFood | DeleteFood | ManageOrders

  /** Where a request for an admin page ends up. */
  datatype Route = Show(page: AdminPage) | RedirectToLogin

  /** `if (!isset($_SESSION['admin_logged_in'])) redirect(admin_login)`:
      the page is shown exactly when the flag is set. */
  function Guard(loggedIn: bool, page: AdminPage): (r: Route)
    ensures r == RedirectToLogin <==> !loggedIn
    ensures r.Show? ==> r.page == page
  {
    if loggedIn then Show(page) else RedirectToLogin
  }
}
