/**
 * The mock session manager: the current user, a loading flag and the one
 * storage entry that remembers the session between visits. Credentials are
 * never checked against anything but one fixed administrator pair.
 */
module Session {
  import opened Text
  import opened Wrappers

  /** The storage key of the session record. */
  const SessionKey := "urbanaura_user"

  const AdminEmail := "admin@urbanaura.com"
  const AdminPassword := "admin123"

  datatype User = User(id: int, name: string, email: string, isAdmin: bool)

  /** The display name of a regular account: the email's text before the first '@'. */
  function DisplayName(email: string): (name: string)
    ensures |name| <= |email| && name == email[..|name|] && '@' !in name
    ensures |name| < |email| ==> email[|name|] == '@'
    ensures '@' !in email ==> name == email
  {
    Before(email, '@')
  }

  /** The user `login` signs in, or None when it returns false. */
  function Authenticate(email: string, password: string): (r: Option<User>)
    ensures r.None? <==> email == "" || password == ""
    ensures r.Some? && r.value.isAdmin <==> email == AdminEmail && password == AdminPassword
    ensures r.Some? && r.value.isAdmin ==> r.value == User(1, "Admin", AdminEmail, true)
    ensures r.Some? && !r.value.isAdmin ==> r.value == User(2, DisplayName(email), email, false)
  {
    if email == AdminEmail && password == AdminPassword then
      Some(User(1, "Admin", AdminEmail, true))
    else if email != "" && password != "" then
      Some(User(2, DisplayName(email), email, false))
    else
      None
  }

  /** The administrator's email with any other non-empty password signs in a regular user named "admin". */
  lemma AdminEmailWrongPassword(password: string)
    requires password != "" && password != AdminPassword
    ensures Authenticate(AdminEmail, password) == Some(User(2, "admin", AdminEmail, false))
  {
    assert AdminEmail == "admin" + "@urbanaura.com";
    assert Before(AdminEmail[5..], '@') == [];
    assert Before(AdminEmail, '@') == "admin";
  }

  class AuthProvider {
    var user: Option<User>
    var isLoading: bool
    /** The browser storage entries this provider reads and writes, already decoded. */
    var storage: map<string, User>

    /** The provider's first render: nobody signed in, still loading. */
    constructor (stored: map<string, User>)
      ensures user == None && isLoading && storage == stored
    {
      user := None;
      isLoading := true;
      storage := stored;
    }

    /** The mount effect: restore a stored session if there is one, then stop loading. */
    method Restore()
      modifies this`user, this`isLoading
      ensures user == (if SessionKey in storage then Some(storage[SessionKey]) else old(user))
      ensures !isLoading
    {
      if SessionKey in storage {
        user := Some(storage[SessionKey]);
      }
      isLoading := false;
    }

    method Login(email: string, password: string) returns (ok: bool)
      modifies this`user, this`isLoading, this`storage
      ensures ok <==> email != "" && password != ""
      ensures ok ==> user == Authenticate(email, password) &&
                     storage == old(storage)[SessionKey := user.value]
      ensures !ok ==> user == old(user) && storage == old(storage)
      ensures !isLoading
    {
      isLoading := true;
      var signedIn := Authenticate(email, password);
      match signedIn {
        case Some(u) =>
          user := Some(u);
          storage := storage[SessionKey := u];
          ok := true;
        case None =>
          ok := false;
      }
      isLoading := false;
    }

    /** Registration always succeeds; the new account's id is the clock reading `now`. */
    method Register(name: string, email: string, password: string, now: int) returns (ok: bool)
      modifies this`user, this`isLoading, this`storage
      ensures ok
      ensures user == Some(User(now, name, email, false))
      ensures storage == old(storage)[SessionKey := User(now, name, email, false)]
      ensures !isLoading
    {
      isLoading := true;
      var newUser := User(now, name, email, false);
      user := Some(newUser);
      storage := storage[SessionKey := newUser];
      ok := true;
      isLoading := false;
    }

    method Logout()
      modifies this`user, this`storage
      ensures user == None
      ensures storage == old(storage) - {SessionKey}
    {
      user := None;
      storage := storage - {SessionKey};
    }
  }

  /** Signing in and then restoring on the next visit brings back the same user. */
  method SessionSurvivesReload(email: string, password: string, stored: map<string, User>)
    returns (first: Option<User>, second: Option<User>)
    ensures email != "" && password != "" ==> second == first == Authenticate(email, password)
  {
    var visit := new AuthProvider(stored);
    var ok := visit.Login(email, password);
    first := visit.user;
    var next := new AuthProvider(visit.storage);
    next.Restore();
    second := next.user;
  }
}
