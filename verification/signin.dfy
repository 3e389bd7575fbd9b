/** The sign-in form's submit handler: the hard-coded administrator pair,
    otherwise the first registry record with the typed email. */
module SignIn {
  import opened Base
  import opened Storage

  const AdminEmail: string := "admin@sami.com"
  const AdminPassword: string := "admin123"
  const InvalidCredentials: string := "Invalid email or password"

  datatype Credentials = Credentials(email: string, password: string)

  /** Where the handler ends: the admin page, the home page, or the form with
      an error. */
  datatype Outcome = AdminSignedIn | SignedIn | Rejected(error: string)

  datatype SignInResult = SignInResult(store: Store, outcome: Outcome)

  /** The record written for the administrator; it is not in the registry. */
  function AdminUser(email: string): User
  {
    User("Admin", email, None, None, None, None, true, None)
  }

  predicate IsFirstWithEmail(users: seq<User>, email: string, i: int)
  {
    0 <= i < |users| && users[i].email == email && forall j :: 0 <= j < i ==> users[j].email != email
  }

  /** `users.find(u => u.email === email)`, as an index. */
  function FindByEmail(users: seq<User>, email: string): (r: Option<nat>)
    ensures r.Some? ==> IsFirstWithEmail(users, email, r.value)
    ensures r.None? ==> forall j :: 0 <= j < |users| ==> users[j].email != email
  {
    if users == [] then None
    else if users[0].email == email then Some(0)
    else
      match FindByEmail(users[1..], email)
      case None => None
      case Some(k) =>
        assert forall j :: 1 <= j <= k + 1 ==> users[j] == users[1..][j - 1];
        Some(k + 1)
  }

  /** The regular branch: the found record's password must equal the typed one. */
  function Lookup(c: Credentials, store: Store): (r: SignInResult)
    ensures r.store == store.(currentUser := r.store.currentUser)
    ensures r.outcome == SignedIn <==>
      exists i :: IsFirstWithEmail(store.users, c.email, i) && store.users[i].password == Some(c.password)
    ensures r.outcome == SignedIn ==>
      exists i :: IsFirstWithEmail(store.users, c.email, i) && r.store.currentUser == Some(store.users[i])
    ensures r.outcome != SignedIn ==> r.outcome == Rejected(InvalidCredentials) && r.store == store
  {
    match FindByEmail(store.users, c.email)
    case Some(i) =>
      if store.users[i].password == Some(c.password)
      then SignInResult(store.(currentUser := Some(store.users[i])), SignedIn)
      else
        assert forall k :: IsFirstWithEmail(store.users, c.email, k) ==> k == i;
        SignInResult(store, Rejected(InvalidCredentials))
    case None => SignInResult(store, Rejected(InvalidCredentials))
  }

  /** `handleSubmit`. */
  function SignIn(c: Credentials, store: Store): (r: SignInResult)
    ensures r.store.users == store.users
    ensures r.store == store.(currentUser := r.store.currentUser)
    ensures c.email == AdminEmail && c.password == AdminPassword ==>
      r.outcome == AdminSignedIn && r.store.currentUser == Some(AdminUser(c.email))
    ensures r.outcome == AdminSignedIn ==> c.email == AdminEmail && c.password == AdminPassword
    ensures r.outcome.Rejected? ==> r.outcome.error == InvalidCredentials && r.store == store
  {
    if c.email == AdminEmail && c.password == AdminPassword then
      SignInResult(store.(currentUser := Some(AdminUser(c.email))), AdminSignedIn)
    else Lookup(c, store)
  }

  /** Any pair other than the administrator's, including the administrator's
      email with another password, goes through the registry lookup. */
  lemma NonAdminUsesRegistry(c: Credentials, store: Store)
    requires !(c.email == AdminEmail && c.password == AdminPassword)
    ensures SignIn(c, store) == Lookup(c, store)
  {
  }

  /** The administrator signs in whatever the registry holds. */
  lemma AdminIgnoresRegistry(store: Store, other: Store)
    ensures SignIn(Credentials(AdminEmail, AdminPassword), store).store.currentUser
         == SignIn(Credentials(AdminEmail, AdminPassword), other).store.currentUser
  {
  }
}
