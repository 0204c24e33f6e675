/**
 * The mock sign-in state of the dashboard (src/providers/auth-provider.tsx).
 */
module AuthContext {
  import opened Wrappers
  import opened ProviderData

  /** The demo accounts `login` accepts. */
  const MockUsers: seq<User> := [
    User("1", "John Owner", "owner@example.com", OwnerRole, None, None),
    User("2", "Jane Staff", "staff@example.com", StaffRole, Some("1"), Some("1"))
  ]

  const MockPassword := "password"
  const InvalidCredentials := "Invalid credentials"

  /** `users.find((u) => u.email === email)`: the first user with that e-mail. */
  function FindByEmail(users: seq<User>, email: string): (r: Option<User>)
    ensures r.None? <==> forall i :: 0 <= i < |users| ==> users[i].email != email
    ensures r.Some? ==> exists i :: 0 <= i < |users| && users[i] == r.value
                                    && r.value.email == email
                                    && forall j :: 0 <= j < i ==> users[j].email != email
  {
    if users == [] then None
    else if users[0].email == email then Some(users[0])
    else
      var r := FindByEmail(users[1..], email);
      assert r.Some? ==> exists i :: 0 <= i < |users[1..]| && users[1..][i] == r.value
                                    && forall j :: 0 <= j < i ==> users[1..][j].email != email;
      r
  }

  /** The user `login(email, password)` signs in, if any. */
  function LoginUser(email: string, password: string): Option<User>
  {
    var found := FindByEmail(MockUsers, email);
    if found.Some? && password == MockPassword then found else None
  }

  /** The user a stored "user" entry restores, if any. */
  function SavedUser(items: map<string, Stored>): Option<User>
  {
    if UserKey in items && items[UserKey].StoredUser? then Some(items[UserKey].user) else None
  }

  class AuthProvider {
    var user: Option<User>
    var isLoading: bool
    const storage: LocalStorage

    /** useState(null) and useState(true). */
    constructor(storage: LocalStorage)
      ensures user == None && isLoading && this.storage == storage
    {
      user := None;
      isLoading := true;
      this.storage := storage;
    }

    /** The mount effect: restore a saved user, then stop loading. */
    method Mount()
      modifies this
      ensures user == (if SavedUser(storage.items).Some? then SavedUser(storage.items) else old(user))
      ensures !isLoading
    {
      if UserKey in storage.items && storage.items[UserKey].StoredUser? {
        user := Some(storage.items[UserKey].user);
      }
      isLoading := false;
    }

    /** login(email, password): an error result stands for the thrown "Invalid credentials". */
    method Login(email: string, password: string) returns (r: Result<(), string>)
      modifies this, storage
      ensures r.Ok? <==> LoginUser(email, password).Some?
      ensures r.Ok? ==> user == LoginUser(email, password) && !isLoading
                        && storage.items == old(storage.items)[UserKey := StoredUser(user.value)]
      ensures r.Err? ==> r.error == InvalidCredentials && user == old(user) && isLoading
                         && storage.items == old(storage.items)
    {
      isLoading := true;
      var foundUser := FindByEmail(MockUsers, email);
      if foundUser.Some? && password == MockPassword {
        user := foundUser;
        storage.SetItem(UserKey, StoredUser(foundUser.value));
      } else {
        return Err(InvalidCredentials);
      }
      isLoading := false;
      return Ok(());
    }

    /** logout(): forget the user and the three keys the providers write. */
    method Logout()
      modifies this, storage
      ensures user == None && isLoading == old(isLoading)
      ensures storage.items == old(storage.items) - {UserKey, CurrentBusinessKey, CurrentRestaurantKey}
    {
      user := None;
      storage.RemoveItem(UserKey);
      storage.RemoveItem(CurrentBusinessKey);
      storage.RemoveItem(CurrentRestaurantKey);
    }
  }

  /** Exactly the two demo e-mails with the demo password sign in. */
  lemma LoginAcceptsOnlyMockAccounts(email: string, password: string)
    ensures LoginUser(email, password).Some? <==>
            password == MockPassword && (email == "owner@example.com" || email == "staff@example.com")
    ensures LoginUser(email, password).Some? ==> LoginUser(email, password).value.email == email
  {
    assert MockUsers[0].email == "owner@example.com" && MockUsers[1].email == "staff@example.com";
  }

  /** The owner account has no business or restaurant; the staff account is tied to business 1, restaurant 1. */
  lemma MockAccountRoles()
    ensures LoginUser("owner@example.com", "password") == Some(MockUsers[0])
    ensures MockUsers[0].role == OwnerRole && MockUsers[0].businessId == None
    ensures LoginUser("staff@example.com", "password") == Some(MockUsers[1])
    ensures MockUsers[1].role == StaffRole && MockUsers[1].restaurantId == Some("1")
  {
    assert MockUsers[0].email != "staff@example.com";
  }

  /** A signed-in user survives a reload: the mount effect restores what login stored. */
  lemma LoginSurvivesReload(items: map<string, Stored>, email: string, password: string)
    requires LoginUser(email, password).Some?
    ensures SavedUser(items[UserKey := StoredUser(LoginUser(email, password).value)]) == LoginUser(email, password)
  {
  }

  /** After logout a reload restores nobody. */
  lemma LogoutForgetsUser(items: map<string, Stored>)
    ensures SavedUser(items - {UserKey, CurrentBusinessKey, CurrentRestaurantKey}) == None
  {
  }
}
