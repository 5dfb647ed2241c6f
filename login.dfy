/** The login / sign-up page: the bounded profile lookup that waits for a new
    profile row to become visible, the role-to-landing-route choice, and the
    two form handlers. */
module Login {
  import opened Common

  /** The default number of profile lookups. */
  const MaxRetries := 6

  const ProfileMissing := "Profile missing or delayed. Please try login again in a moment, or contact admin."
  const NoValidRole := "No valid role on profile. Contact admin."
  const ConfirmEmail := "Signup OK \U{2014} check your email to confirm, then login."
  const AccountCreated := "Account created! Logging in..."
  const SignupSlow := "Signup OK but slow. Please try login in a moment."

  /** `profile && profile.role`: a profile was returned and its role is set. */
  predicate HasRole(p: Option<Record>)
  {
    p.Some? && FieldOrEmpty(p.value, "role") != ""
  }

  /** The first of lookups `i`, `i + 1`, ..., `n - 1` that gives a profile
      with a role. */
  function FirstWithRole(lookup: nat -> Option<Record>, i: nat, n: int): Option<Record>
    decreases n - i
  {
    if i >= n then None
    else if HasRole(lookup(i)) then lookup(i)
    else FirstWithRole(lookup, i + 1, n)
  }

  /** The characterisation of `FirstWithRole`: a profile with a role, found by
      lookup `k`, every earlier lookup without one; or none within `n`. */
  lemma {:induction false} FirstWithRoleIsFirst(lookup: nat -> Option<Record>, i: nat, n: int)
    ensures FirstWithRole(lookup, i, n).Some? ==>
      exists k: nat :: i <= k < n && lookup(k) == FirstWithRole(lookup, i, n) && HasRole(lookup(k))
        && forall j: nat :: i <= j < k ==> !HasRole(lookup(j))
    ensures FirstWithRole(lookup, i, n).None? <==> forall j: nat :: i <= j < n ==> !HasRole(lookup(j))
    decreases n - i
  {
    if i < n {
      FirstWithRoleIsFirst(lookup, i + 1, n);
      if HasRole(lookup(i)) {
        assert i <= i < n && lookup(i) == FirstWithRole(lookup, i, n);
      } else {
        if FirstWithRole(lookup, i, n).None? {
          forall j: nat | i <= j < n ensures !HasRole(lookup(j)) {
            if j > i {
              assert i + 1 <= j < n;
            }
          }
        }
      }
    }
  }

  /** `fetchProfileWithRetry`: `lookup(i)` is what the `i`-th lookup of the
      profile row returns. At most `maxRetries` lookups are made; the result
      is the first profile with a role, or None. `lookups` is the number of
      lookups made (the fixed delay after each miss is not modelled). */
  method FetchProfileWithRetry(lookup: nat -> Option<Record>, maxRetries: int)
    returns (profile: Option<Record>, lookups: nat)
    ensures lookups <= if maxRetries < 0 then 0 else maxRetries
    ensures profile.Some? ==> 0 < lookups && lookup(lookups - 1) == profile && HasRole(profile)
    ensures profile.None? ==> lookups == if maxRetries < 0 then 0 else maxRetries
    ensures forall j: nat :: j < lookups && (profile.None? || j < lookups - 1) ==> !HasRole(lookup(j))
    ensures profile == FirstWithRole(lookup, 0, maxRetries)
  {
    var i: nat := 0;
    while i < maxRetries
      invariant i <= if maxRetries < 0 then 0 else maxRetries
      invariant forall j: nat :: j < i ==> !HasRole(lookup(j))
      invariant FirstWithRole(lookup, i, maxRetries) == FirstWithRole(lookup, 0, maxRetries)
    {
      var p := lookup(i);
      if HasRole(p) {
        return p, i + 1;
      }
      i := i + 1;
    }
    return None, i;
  }

  /** The landing route after login, for a lower-cased role: `"/" + role` for
      the three known roles, and no redirect for any other. */
  function LoginRoute(roleLower: string): (r: Option<string>)
    ensures r.Some? <==> roleLower in {"admin", "ngo", "temple"}
    ensures r.Some? ==> r.value == "/" + roleLower
  {
    if roleLower == "admin" then Some("/admin")
    else if roleLower == "ngo" then Some("/ngo")
    else if roleLower == "temple" then Some("/temple")
    else None
  }

  /** The landing route after sign-up: admin and ngo as after login, and every
      other role to "/temple/index.js". */
  function SignupRoute(roleLower: string): (r: string)
    ensures roleLower in {"admin", "ngo"} ==> Some(r) == LoginRoute(roleLower)
    ensures roleLower !in {"admin", "ngo"} ==> r == "/temple/index.js"
  {
    if roleLower == "admin" then "/admin"
    else if roleLower == "ngo" then "/ngo"
    else "/temple/index.js"
  }

  /** The two handlers disagree for the temple role, and sign-up sends any
      unknown role where login sends none. */
  lemma SignupAndLoginRoutes(role: string)
    ensures SignupRoute("temple") != LoginRoute("temple").value
    ensures role !in {"admin", "ngo", "temple"} ==> LoginRoute(role).None? && SignupRoute(role) == "/temple/index.js"
  {
  }

  /** Login accepts a role in any mix of ASCII cases: it lands on a page
      exactly when the stored role spells that page's role. */
  lemma LoginRouteIgnoresCase(role: string)
    ensures LoginRoute(Lower(role)) == Some("/admin") <==> SameUpToCase(role, "admin")
    ensures LoginRoute(Lower(role)) == Some("/ngo") <==> SameUpToCase(role, "ngo")
    ensures LoginRoute(Lower(role)) == Some("/temple") <==> SameUpToCase(role, "temple")
  {
    LowerMatchesWord(role, "admin");
    LowerMatchesWord(role, "ngo");
    LowerMatchesWord(role, "temple");
  }

  datatype SignInResult = SignInFailed(message: string) | SignedIn(userId: string)

  /** `signUp`'s result: an error, or the new user, absent while the e-mail
      address is unconfirmed. */
  datatype SignUpResult = SignUpFailed(message: string) | SignedUp(user: Option<string>)

  /** The profile row the sign-up inserts; a blank name is stored as null. */
  function ProfileRow(userId: string, email: string, roleLower: string, name: string, now: string)
    : (r: Record)
    ensures Field(r, "id") == Some(userId) && Field(r, "email") == Some(email)
    ensures Field(r, "role") == Some(roleLower)
    ensures Field(r, "full_name") == NullIfEmpty(name)
  {
    var base := map["id" := userId, "email" := email, "role" := roleLower, "created_at" := now];
    if name == "" then base else base["full_name" := name]
  }

  class AuthPage {
    var loading: bool
    var snack: Notice
    /** The target of the last `router.replace`, if any. */
    var route: Option<string>
    var email: string
    /** The role chosen on the sign-up form. */
    var role: string
    var name: string
    /** The `profiles` table, as far as this page writes it. */
    var profiles: map<string, Record>

    constructor (profiles: map<string, Record>)
      ensures !loading && snack == Notice(false, Info, "") && route == None
      ensures email == "" && role == "ngo" && name == "" && this.profiles == profiles
    {
      loading := false;
      snack := Notice(false, Info, "");
      route := None;
      email := "";
      role := "ngo";
      name := "";
      this.profiles := profiles;
    }

    /** `handleLogin`, with the sign-in result and the profile lookups given. */
    method HandleLogin(signIn: SignInResult, lookup: nat -> Option<Record>)
      modifies this
      ensures !loading
      ensures email == old(email) && role == old(role) && name == old(name) && profiles == old(profiles)
      ensures signIn.SignInFailed? ==>
        snack == Shown(Error, MessageOr(signIn.message, "Login failed")) && route == old(route)
      ensures signIn.SignedIn? && FirstWithRole(lookup, 0, MaxRetries).None? ==>
        snack == Shown(Warning, ProfileMissing) && route == old(route)
      ensures signIn.SignedIn? && FirstWithRole(lookup, 0, MaxRetries).Some? ==>
        var r := LoginRoute(Lower(FieldOrEmpty(FirstWithRole(lookup, 0, MaxRetries).value, "role")));
        && (r.Some? ==> route == r && snack == old(snack))
        && (r.None? ==> route == old(route) && snack == Shown(Warning, NoValidRole))
    {
      loading := true;
      if signIn.SignInFailed? {
        snack := Shown(Error, MessageOr(signIn.message, "Login failed"));
        loading := false;
        return;
      }
      var profile, _ := FetchProfileWithRetry(lookup, MaxRetries);
      if profile.None? {
        snack := Shown(Warning, ProfileMissing);
        loading := false;
        return;
      }
      var userRole := Lower(FieldOrEmpty(profile.value, "role"));
      var target := LoginRoute(userRole);
      if target.Some? {
        route := target;
      } else {
        snack := Shown(Warning, NoValidRole);
      }
      loading := false;
    }

    /** `handleSignup`, with the sign-up result, the result of the profile
        insert, its `created_at` timestamp and the profile lookups given. */
    method HandleSignup(signUp: SignUpResult, insert: WriteResult, now: string,
                        lookup: nat -> Option<Record>)
      modifies this
      ensures !loading
      ensures email == old(email) && role == old(role) && name == old(name)
      ensures signUp.SignUpFailed? ==>
        snack == Shown(Error, MessageOr(signUp.message, "Signup failed"))
        && route == old(route) && profiles == old(profiles)
      ensures signUp == SignedUp(None) ==>
        snack == Shown(Info, ConfirmEmail) && route == old(route) && profiles == old(profiles)
      ensures signUp.SignedUp? && signUp.user.Some? && insert.WriteFailed? ==>
        snack == Shown(Error, MessageOr(insert.message, "Signup failed"))
        && route == old(route) && profiles == old(profiles)
      ensures signUp.SignedUp? && signUp.user.Some? && insert.WriteOk? ==>
        var uid := signUp.user.value;
        && profiles == old(profiles)[uid := ProfileRow(uid, old(email), Lower(old(role)), old(name), now)]
        && (FirstWithRole(lookup, 0, MaxRetries).None? ==>
              snack == Shown(Warning, SignupSlow) && route == old(route))
        && (FirstWithRole(lookup, 0, MaxRetries).Some? ==>
              snack == Shown(Success, AccountCreated) && route == Some(SignupRoute(Lower(old(role)))))
    {
      loading := true;
      if signUp.SignUpFailed? {
        snack := Shown(Error, MessageOr(signUp.message, "Signup failed"));
        loading := false;
        return;
      }
      if signUp.user.None? {
        snack := Shown(Info, ConfirmEmail);
        loading := false;
        return;
      }
      var user := signUp.user.value;
      var roleLower := Lower(role);
      if insert.WriteFailed? {
        snack := Shown(Error, MessageOr(insert.message, "Signup failed"));
        loading := false;
        return;
      }
      profiles := profiles[user := ProfileRow(user, email, roleLower, name, now)];
      snack := Shown(Success, AccountCreated);
      var profile, _ := FetchProfileWithRetry(lookup, MaxRetries);
      if profile.None? {
        snack := Shown(Warning, SignupSlow);
        loading := false;
        return;
      }
      route := Some(SignupRoute(roleLower));
      loading := false;
    }
  }
}
