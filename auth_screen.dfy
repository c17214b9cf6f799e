/** The login and signup screen (app/auth/index.tsx): field validation, the mode toggle and the
    submit dispatch to the auth store. */
module AuthScreen {
  import opened Types
  import opened Text
  import AuthStoreHook

  const EmailRequired := "Email is required"
  const EmailInvalid := "Email is invalid"
  const PasswordRequired := "Password is required"
  const PasswordTooShort := "Password must be at least 6 characters"
  const NameRequired := "Name is required"
  const PhoneRequired := "Phone number is required"
  const LoginFailed := "Invalid email or password"
  const SignupFailed := "Failed to create account"

  /** `s[lo..hi]` holds no whitespace (`\S` in a regular expression). */
  predicate NonSpaceRun(s: string, lo: int, hi: int)
    requires 0 <= lo <= hi <= |s|
  {
    forall k :: lo <= k < hi ==> !IsSpace(s[k])
  }

  /** `s[i..j]` is a match of `\S+@\S+\.\S+`, the `@` at `at` and the `.` at `dot`. */
  ghost predicate RegexMatchAt(s: string, i: int, at: int, dot: int, j: int) {
    0 <= i < at && at + 1 < dot && dot + 1 < j <= |s|
    && s[at] == '@' && s[dot] == '.'
    && NonSpaceRun(s, i, at) && NonSpaceRun(s, at + 1, dot) && NonSpaceRun(s, dot + 1, j)
  }

  /** `/\S+@\S+\.\S+/.test(s)`: the pattern is not anchored, so a match anywhere counts. */
  ghost predicate RegexMatches(s: string) {
    exists i, at, dot, j :: RegexMatchAt(s, i, at, dot, j)
  }

  /** The shortest form of a match: one non-space before the `@`, non-spaces up to the `.`, one
      non-space after it. */
  predicate ShortMatchAt(s: string, at: int, dot: int) {
    0 < at && at + 1 < dot && dot + 1 < |s|
    && s[at] == '@' && s[dot] == '.'
    && !IsSpace(s[at - 1]) && NonSpaceRun(s, at + 1, dot) && !IsSpace(s[dot + 1])
  }

  /** The email test the form runs. */
  predicate MatchesEmailPattern(s: string) {
    exists at, dot | 0 < at < dot < |s| :: ShortMatchAt(s, at, dot)
  }

  /** The test decides exactly the regular expression: every match can be shrunk to its shortest
      form around the same `@` and `.`, and a shortest form is a match. */
  lemma EmailPatternIsRegex(s: string)
    ensures MatchesEmailPattern(s) <==> RegexMatches(s)
  {
    if MatchesEmailPattern(s) {
      var at, dot :| 0 < at < dot < |s| && ShortMatchAt(s, at, dot);
      assert RegexMatchAt(s, at - 1, at, dot, dot + 2);
    }
    if RegexMatches(s) {
      var i, at, dot, j :| RegexMatchAt(s, i, at, dot, j);
      assert s[at - 1] == s[at - 1] && i <= at - 1;
      assert ShortMatchAt(s, at, dot);
    }
  }

  /** Text around an address never stops it from matching. */
  lemma MatchIsUnanchored(before: string, s: string, after: string)
    requires MatchesEmailPattern(s)
    ensures MatchesEmailPattern(before + s + after)
  {
    var at, dot :| 0 < at < dot < |s| && ShortMatchAt(s, at, dot);
    var t := before + s + after;
    var p := |before|;
    assert forall k :: 0 <= k < |s| ==> t[p + k] == s[k];
    assert ShortMatchAt(t, p + at, p + dot);
  }

  /** The demo customer's address passes; one without a dot after the `@`, or with a space right
      before it, does not. */
  lemma EmailExamples()
    ensures MatchesEmailPattern("alex@example.com")
    ensures !MatchesEmailPattern("alex@example")
    ensures !MatchesEmailPattern("a @b.c")
  {
    assert ShortMatchAt("alex@example.com", 4, 12);
    var s := "a @b.c";
    forall at, dot | 0 < at < dot < |s|
      ensures !ShortMatchAt(s, at, dot)
    {
      if s[at] == '@' {
        assert at == 2;
        assert IsSpace(s[at - 1]);
      }
    }
  }

  /** The message for the email field, if any. */
  function EmailError(email: string): (r: Option<string>)
    ensures r.None? <==> MatchesEmailPattern(email)
    ensures r.Some? ==> r.value == (if email == "" then EmailRequired else EmailInvalid)
  {
    if email == "" then Some(EmailRequired)
    else if !MatchesEmailPattern(email) then Some(EmailInvalid)
    else None
  }

  /** The message for the password field, if any. */
  function PasswordError(password: string): (r: Option<string>)
    ensures r.None? <==> |password| >= 6
    ensures r.Some? ==> r.value == (if password == "" then PasswordRequired else PasswordTooShort)
  {
    if password == "" then Some(PasswordRequired)
    else if |password| < 6 then Some(PasswordTooShort)
    else None
  }

  /** The error map validateForm produces, field by field in the screen's order. */
  function AuthFormErrors(isLogin: bool, email: string, password: string, name: string, phone: string)
    : (e: map<string, string>)
    ensures e.Keys <= {"email", "password", "name", "phone"}
    ensures "email" in e <==> EmailError(email).Some?
    ensures "email" in e ==> e["email"] == EmailError(email).value
    ensures "password" in e <==> PasswordError(password).Some?
    ensures "password" in e ==> e["password"] == PasswordError(password).value
    ensures "name" in e <==> !isLogin && name == ""
    ensures "name" in e ==> e["name"] == NameRequired
    ensures "phone" in e <==> !isLogin && phone == ""
    ensures "phone" in e ==> e["phone"] == PhoneRequired
  {
    var e := WithError(map[], "email", EmailError(email));
    var e := WithError(e, "password", PasswordError(password));
    var e := WithError(e, "name", if !isLogin && name == "" then Some(NameRequired) else None);
    WithError(e, "phone", if !isLogin && phone == "" then Some(PhoneRequired) else None)
  }

  /** validateForm: one entry per failing field with that field's message; name and phone are only
      checked when signing up; the form is valid iff no entry was made. */
  method CheckAuthForm(isLogin: bool, email: string, password: string, name: string, phone: string)
    returns (errors: map<string, string>, valid: bool)
    ensures errors == AuthFormErrors(isLogin, email, password, name, phone)
    ensures "email" in errors <==> email == "" || !MatchesEmailPattern(email)
    ensures "password" in errors <==> |password| < 6
    ensures valid <==> MatchesEmailPattern(email) && |password| >= 6 && (isLogin || (name != "" && phone != ""))
    ensures valid <==> errors == map[]
  {
    var newErrors: map<string, string> := map[];
    if email == "" {
      newErrors := newErrors["email" := EmailRequired];
    } else if !MatchesEmailPattern(email) {
      newErrors := newErrors["email" := EmailInvalid];
    }
    if password == "" {
      newErrors := newErrors["password" := PasswordRequired];
    } else if |password| < 6 {
      newErrors := newErrors["password" := PasswordTooShort];
    }
    if !isLogin {
      if name == "" {
        newErrors := newErrors["name" := NameRequired];
      }
      if phone == "" {
        newErrors := newErrors["phone" := PhoneRequired];
      }
    }
    errors := newErrors;
    assert errors.Keys == AuthFormErrors(isLogin, email, password, name, phone).Keys;
    valid := |newErrors.Keys| == 0;
    if !valid {
      assert newErrors.Keys != {};
    }
  }

  /** A valid signup form never falls back to the store's defaults: the new user carries the name,
      email, phone and role that were entered. */
  lemma ValidSignupKeepsFields(email: string, password: string, name: string, phone: string, role: Role,
                               now: nat)
    requires AuthFormErrors(false, email, password, name, phone) == map[]
    ensures var u := AuthStoreHook.NewUser(AuthStoreHook.SignupData(Some(name), Some(email), Some(phone), Some(role)), now);
            u.name == name && u.email == email && u.phone == phone && u.role == role
  {
  }

  class AuthForm {
    var isLogin: bool
    var role: Role
    var email: string
    var password: string
    var name: string
    var phone: string
    var errors: map<string, string>

    constructor()
      ensures isLogin && role == CustomerRole
      ensures email == "" && password == "" && name == "" && phone == "" && errors == map[]
    {
      isLogin := true;
      role := CustomerRole;
      email, password, name, phone := "", "", "", "";
      errors := map[];
    }

    /** validateForm as the screen runs it: the error map is replaced. */
    method ValidateForm() returns (valid: bool)
      modifies this`errors
      ensures errors == AuthFormErrors(isLogin, email, password, name, phone)
      ensures valid <==> errors == map[]
    {
      errors, valid := CheckAuthForm(isLogin, email, password, name, phone);
    }

    /** toggleAuthMode: login and signup swap and every error is cleared; the fields are kept. */
    method ToggleAuthMode()
      modifies this`isLogin, this`errors
      ensures isLogin == !old(isLogin) && errors == map[]
    {
      isLogin := !isLogin;
      errors := map[];
    }

    /** handleSubmit: an invalid form stops here with its errors shown. A valid one goes to login
        or signup by mode; success navigates (the answer is true), failure shows the mode's form
        error. */
    method HandleSubmit(store: AuthStoreHook.AuthStore, now: nat, storageOk: bool) returns (navigated: bool)
      modifies this`errors, store
      ensures AuthFormErrors(isLogin, email, password, name, phone) != map[] ==>
                !navigated && errors == AuthFormErrors(isLogin, email, password, name, phone)
                && store.user == old(store.user)
      ensures AuthFormErrors(isLogin, email, password, name, phone) == map[] && isLogin ==>
                (navigated <==> AuthStoreHook.LookupUser(email, role).Some? && storageOk)
                && (AuthStoreHook.LookupUser(email, role).Some? ==> store.user == AuthStoreHook.LookupUser(email, role))
                && (AuthStoreHook.LookupUser(email, role).None? ==> store.user == old(store.user))
                && errors == (if navigated then map[] else map["form" := LoginFailed])
      ensures AuthFormErrors(isLogin, email, password, name, phone) == map[] && !isLogin ==>
                navigated == storageOk
                && store.user == Some(AuthStoreHook.NewUser(
                     AuthStoreHook.SignupData(Some(name), Some(email), Some(phone), Some(role)), now))
                && errors == (if navigated then map[] else map["form" := SignupFailed])
    {
      var valid := ValidateForm();
      if !valid {
        return false;
      }
      if isLogin {
        navigated := store.Login(email, password, role, storageOk);
        if !navigated {
          errors := map["form" := LoginFailed];
        }
      } else {
        navigated := store.Signup(AuthStoreHook.SignupData(Some(name), Some(email), Some(phone), Some(role)),
                                  password, now, storageOk);
        if !navigated {
          errors := map["form" := SignupFailed];
        }
      }
    }
  }
}
