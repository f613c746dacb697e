/** The login page: two text fields, an empty-field check, a lookup of the
    first matching credential, and the storage writes that mark the session
    as logged in. The credential list is a parameter; the 500 ms delay before
    the lookup and the auto-hiding of the error are not modelled. */
module Login {
  import opened Wrappers
  import opened Session

  datatype Credential = Credential(username: string, password: string, role: string)

  const MissingFieldsError := "Please enter both username and password"
  const InvalidCredentialsError := "Invalid username or password"

  /** The test `u.username === username && u.password === password`. */
  predicate Matches(c: Credential, username: string, password: string)
  {
    c.username == username && c.password == password
  }

  /** `VALID_USERS.find(...)`: the first entry matching both fields, if any. */
  function FindUser(users: seq<Credential>, username: string, password: string): (r: Option<Credential>)
    ensures r.Some? ==> r.value in users && Matches(r.value, username, password)
  {
    if users == [] then None
    else if Matches(users[0], username, password) then Some(users[0])
    else FindUser(users[1..], username, password)
  }

  /** The lookup succeeds exactly when some entry matches both fields. */
  lemma {:induction false} FindUserSucceedsIffSomeMatch(users: seq<Credential>, username: string, password: string)
    ensures FindUser(users, username, password).Some? <==>
      exists i :: 0 <= i < |users| && Matches(users[i], username, password)
  {
    if users != [] {
      FindUserSucceedsIffSomeMatch(users[1..], username, password);
      if exists i :: 0 <= i < |users| && Matches(users[i], username, password) {
        var i :| 0 <= i < |users| && Matches(users[i], username, password);
        if i > 0 {
          assert users[1..][i - 1] == users[i];
        }
      }
      if exists i :: 0 <= i < |users[1..]| && Matches(users[1..][i], username, password) {
        var i :| 0 <= i < |users[1..]| && Matches(users[1..][i], username, password);
        assert users[i + 1] == users[1..][i];
      }
    }
  }

  /** When entry `i` is the first match, the lookup returns it. */
  lemma {:induction false} FindUserReturnsFirstMatch(users: seq<Credential>, username: string, password: string, i: int)
    requires 0 <= i < |users| && Matches(users[i], username, password)
    requires forall j :: 0 <= j < i ==> !Matches(users[j], username, password)
    ensures FindUser(users, username, password) == Some(users[i])
  {
    if i > 0 {
      assert !Matches(users[0], username, password);
      forall j | 0 <= j < i - 1
        ensures !Matches(users[1..][j], username, password)
      {
        assert users[1..][j] == users[j + 1];
      }
      FindUserReturnsFirstMatch(users[1..], username, password, i - 1);
    }
  }

  /** The login form's state; rebuilt each time the login page is shown. */
  class LoginPage {
    var username: string
    var password: string
    var error: Option<string>
    var loading: bool
    const storage: Storage

    constructor (storage: Storage)
      ensures username == "" && password == "" && error == None && !loading
      ensures this.storage == storage
    {
      username := "";
      password := "";
      error := None;
      loading := false;
      this.storage := storage;
    }

    method SetUsername(value: string)
      modifies this
      ensures username == value
      ensures password == old(password) && error == old(error) && loading == old(loading)
    {
      username := value;
    }

    method SetPassword(value: string)
      modifies this
      ensures password == value
      ensures username == old(username) && error == old(error) && loading == old(loading)
    {
      password := value;
    }

    /** handleSubmit, with the delayed lookup run to completion. `stringify` is the
        JSON encoding of the stored user info. Returns whether the success
        callback fires; by then the logged-in flag is already stored. */
    method HandleSubmit(users: seq<Credential>, stringify: UserInfo -> string) returns (loggedIn: bool)
      modifies this, storage
      ensures username == old(username) && password == old(password)
      ensures old(username) == "" || old(password) == "" ==>
        !loggedIn && error == Some(MissingFieldsError) && loading == old(loading) &&
        storage.items == old(storage.items)
      ensures old(username) != "" && old(password) != "" ==>
        loggedIn == FindUser(users, old(username), old(password)).Some?
      ensures old(username) != "" && old(password) != "" && loggedIn ==>
        var user := FindUser(users, old(username), old(password)).value;
        error == None && loading &&
        storage.items == old(storage.items)[LoggedInKey := "true"][UserKey := stringify(UserInfo(user.username, user.role))]
      ensures old(username) != "" && old(password) != "" && !loggedIn ==>
        error == Some(InvalidCredentialsError) && !loading && storage.items == old(storage.items)
    {
      error := None;
      if username == "" || password == "" {
        error := Some(MissingFieldsError);
        return false;
      }
      loading := true;
      var user := FindUser(users, username, password);
      if user.Some? {
        storage.SetItem(LoggedInKey, "true");
        storage.SetItem(UserKey, stringify(UserInfo(user.value.username, user.value.role)));
        loggedIn := true;
      } else {
        error := Some(InvalidCredentialsError);
        loading := false;
        loggedIn := false;
      }
    }
  }
}
