/** The signed-in user (hooks/auth-store.ts): a mock login by role and case-insensitive email, a
    signup that always builds a user, and logout. Storage writes are modelled by a flag saying
    whether they succeed. */
module AuthStoreHook {
  import opened Types
  import opened Text
  import MockData

  /** `mockDrivers.find(d => d.email.toLowerCase() === email.toLowerCase())`. */
  function FindDriverByEmail(drivers: seq<Driver>, email: string): (r: Option<User>)
    ensures r.None? <==> forall i :: 0 <= i < |drivers| ==> !EqualsIgnoreCase(drivers[i].profile.email, email)
    ensures r.Some? ==> exists i :: 0 <= i < |drivers| && drivers[i].profile == r.value
                                   && EqualsIgnoreCase(drivers[i].profile.email, email)
                                   && forall j :: 0 <= j < i ==> !EqualsIgnoreCase(drivers[j].profile.email, email)
  {
    if drivers == [] then None
    else if EqualsIgnoreCase(drivers[0].profile.email, email) then Some(drivers[0].profile)
    else
      var r := FindDriverByEmail(drivers[1..], email);
      assert forall i :: 1 <= i < |drivers| ==> drivers[i] == drivers[1..][i - 1];
      if r.Some? then
        var i :| 0 <= i < |drivers[1..]| && drivers[1..][i].profile == r.value
                 && EqualsIgnoreCase(drivers[1..][i].profile.email, email)
                 && forall j :: 0 <= j < i ==> !EqualsIgnoreCase(drivers[1..][j].profile.email, email);
        assert drivers[i + 1] == drivers[1..][i];
        r
      else r
  }

  /** The user login looks up: the demo customer for the customer role when the email matches
      case-insensitively, the first matching mock driver for the driver role. */
  function LookupUser(email: string, role: Role): (r: Option<User>)
    ensures role == CustomerRole ==>
              (r.Some? <==> EqualsIgnoreCase(email, MockData.MockCustomer.profile.email))
              && (r.Some? ==> r.value == MockData.MockCustomer.profile)
    ensures role == DriverRole ==> r == FindDriverByEmail(MockData.MockDrivers, email)
    ensures r.Some? ==> r.value.role == role
  {
    if role == CustomerRole then
      if ToLower(email) == ToLower(MockData.MockCustomer.profile.email) then Some(MockData.MockCustomer.profile)
      else None
    else
      var r := FindDriverByEmail(MockData.MockDrivers, email);
      assert forall i :: 0 <= i < |MockData.MockDrivers| ==> MockData.MockDrivers[i].profile.role == DriverRole;
      r
  }

  /** Any capitalisation of a mock driver's address logs in as that driver. */
  lemma DriverEmailsFound(email: string)
    requires EqualsIgnoreCase(email, "sarah@whnocome.com")
    ensures LookupUser(email, DriverRole) == Some(MockData.MockDrivers[1].profile)
  {
    var ds := MockData.MockDrivers;
    assert !EqualsIgnoreCase(ds[0].profile.email, email) by {
      assert ToLower(ds[0].profile.email)[0] != ToLower(email)[0];
    }
    assert ds[1..][1..] == ds[2..];
  }

  /** The fields signup receives; each may be missing or empty. */
  datatype SignupData = SignupData(name: Option<string>, email: Option<string>, phone: Option<string>,
                                   role: Option<Role>)

  /** The user signup builds: missing or empty fields take the defaults "New User", "", "" and the
      customer role; the id is `user-` and the millisecond clock. */
  function NewUser(data: SignupData, now: nat): (u: User)
    ensures u.id == "user-" + NatToString(now)
    ensures u.name == (if data.name.Some? && data.name.value != "" then data.name.value else "New User")
    ensures u.email == (if data.email.Some? then data.email.value else "")
    ensures u.phone == (if data.phone.Some? then data.phone.value else "")
    ensures u.role == (if data.role.Some? then data.role.value else CustomerRole)
  {
    User("user-" + NatToString(now), StringOr(data.name, "New User"), StringOr(data.email, ""),
         StringOr(data.phone, ""), data.role.GetOr(CustomerRole))
  }

  class AuthStore {
    var user: Option<User>
    var isLoading: bool

    constructor()
      ensures user == None && isLoading
    {
      user := None;
      isLoading := true;
    }

    /** `isAuthenticated: !!user`. */
    function IsAuthenticated(): (r: bool)
      reads this
      ensures r <==> user.Some?
    {
      user.Some?
    }

    /** The mount effect: a stored user is restored; loading ends. */
    method LoadUser(stored: Option<User>)
      modifies this
      ensures user == (if stored.Some? then stored else old(user))
      ensures !isLoading
    {
      if stored.Some? {
        user := stored;
      }
      isLoading := false;
    }

    /** login: the password is never looked at. A found user is set before it is stored, so a
        failing storage write answers false with the user already signed in. */
    method Login(email: string, password: string, role: Role, storageOk: bool) returns (ok: bool)
      modifies this
      ensures LookupUser(email, role).Some? ==> user == LookupUser(email, role)
      ensures LookupUser(email, role).None? ==> user == old(user)
      ensures ok <==> LookupUser(email, role).Some? && storageOk
      ensures !isLoading
    {
      isLoading := true;
      var loggedInUser := LookupUser(email, role);
      if loggedInUser.Some? {
        user := loggedInUser;
        ok := storageOk;
      } else {
        ok := false;
      }
      isLoading := false;
    }

    /** logout: the stored user is removed first; only if that succeeds is the user cleared. */
    method Logout(storageOk: bool)
      modifies this
      ensures user == (if storageOk then None else old(user))
      ensures !isLoading
    {
      isLoading := true;
      if storageOk {
        user := None;
      }
      isLoading := false;
    }

    /** signup: the new user is always set; the answer is whether storing it succeeded. */
    method Signup(data: SignupData, password: string, now: nat, storageOk: bool) returns (ok: bool)
      modifies this
      ensures user == Some(NewUser(data, now))
      ensures ok == storageOk
      ensures !isLoading
    {
      isLoading := true;
      user := Some(NewUser(data, now));
      ok := storageOk;
      isLoading := false;
    }
  }
}
