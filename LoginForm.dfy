/** The login form: its state fields, the submit handler that delegates to
    `loginWithOptions`, and the demo password reset. */
module LoginForm {
  import opened Wrappers
  import opened AuthTypes
  import opened Text
  import opened Storage
  import opened AuthService

  const EnterEmailFirst: string := "Enter your email first, then click \U{201C}Forgot password?\U{201D}."
  const NoAccountFound: string := "No account found for this email and role."
  const DemoPassword: string := "password123"
  const ResetInfo: string := "Password reset (demo). New password: password123"

  /** `users[idx] = { ...users[idx], passwordHash }`. */
  function ResetPassword(users: seq<StoredUser>, idx: nat, hash: string): (r: seq<StoredUser>)
    requires idx < |users|
    ensures |r| == |users|
    ensures r[idx].passwordHash == hash
    ensures r[idx].id == users[idx].id && r[idx].role == users[idx].role
            && r[idx].name == users[idx].name && r[idx].email == users[idx].email
    ensures forall j :: 0 <= j < |users| && j != idx ==> r[j] == users[j]
  {
    users[idx := users[idx].(passwordHash := hash)]
  }

  /** After a reset of the first user holding (normalized email, role),
      logging in to that pair with "password123" succeeds ... */
  lemma ResetThenLogin(users: seq<StoredUser>, digest: Digest, role: Role, email: string, now: int)
    requires FindUser(users, NormalizeEmail(email), role).Some?
    ensures var idx := FindUser(users, NormalizeEmail(email), role).value;
            var reset := ResetPassword(users, idx, Sha256Hex(digest, DemoPassword));
            LoginOutcome(reset, digest, role, Credentials(email, DemoPassword), now).Success?
  {
    var idx := FindUser(users, NormalizeEmail(email), role).value;
    FindUserIgnoresOtherFields(users, ResetPassword(users, idx, Sha256Hex(digest, DemoPassword)), NormalizeEmail(email), role);
  }

  /** ... and any other password fails, including the old one, whenever its
      digest differs from the digest of "password123". */
  lemma ResetRejectsOtherPassword(users: seq<StoredUser>, digest: Digest, role: Role, email: string, other: string, now: int)
    requires FindUser(users, NormalizeEmail(email), role).Some?
    requires digest(other) != digest(DemoPassword)
    ensures var idx := FindUser(users, NormalizeEmail(email), role).value;
            var reset := ResetPassword(users, idx, Sha256Hex(digest, DemoPassword));
            LoginOutcome(reset, digest, role, Credentials(email, other), now) == Failure(InvalidCredentials)
  {
    var idx := FindUser(users, NormalizeEmail(email), role).value;
    FindUserIgnoresOtherFields(users, ResetPassword(users, idx, Sha256Hex(digest, DemoPassword)), NormalizeEmail(email), role);
    HexEncodeInjective(digest(other), digest(DemoPassword));
  }

  /** A reset keeps every (email, role) pair where it was. */
  lemma ResetKeepsPairUnique(users: seq<StoredUser>, idx: nat, hash: string)
    requires idx < |users| && PairUnique(users)
    ensures PairUnique(ResetPassword(users, idx, hash))
  {
    var r := ResetPassword(users, idx, hash);
    assert forall j :: 0 <= j < |users| ==> r[j].email == users[j].email && r[j].role == users[j].role;
  }

  class LoginForm {
    const role: Role
    var email: string
    var password: string
    var rememberMe: bool
    var error: Option<string>
    var info: Option<string>
    var isLoading: bool

    /** The initial state: empty inputs, "remember me" ticked, no messages. */
    constructor (role: Role)
      ensures this.role == role
      ensures email == "" && password == "" && rememberMe
      ensures error == None && info == None && !isLoading
    {
      this.role := role;
      email := "";
      password := "";
      rememberMe := true;
      error := None;
      info := None;
      isLoading := false;
    }

    method SetEmail(v: string)
      modifies this
      ensures email == v
      ensures password == old(password) && rememberMe == old(rememberMe)
      ensures error == old(error) && info == old(info) && isLoading == old(isLoading)
    {
      email := v;
    }

    method SetPassword(v: string)
      modifies this
      ensures password == v
      ensures email == old(email) && rememberMe == old(rememberMe)
      ensures error == old(error) && info == old(info) && isLoading == old(isLoading)
    {
      password := v;
    }

    method SetRememberMe(v: bool)
      modifies this
      ensures rememberMe == v
      ensures email == old(email) && password == old(password)
      ensures error == old(error) && info == old(info) && isLoading == old(isLoading)
    {
      rememberMe := v;
    }

    /** `onSubmit`: clear the messages, log in with the form's `rememberMe`,
        and hand the session to `onSuccess` (the returned value) or show the
        error. The spinner is off again at the end. */
    method OnSubmit(st: WebStorage, digest: Digest, now: int) returns (signedIn: Option<AuthSession>)
      modifies this, st
      ensures var out := LoginOutcome(LoadUsers(old(st.local)), digest, role, Credentials(email, password), now);
              var flagged := old(st.local)[SessionStorageKey := ModeJson(if rememberMe then LocalMode else SessionMode)];
              && (out.Success? ==> signedIn == Some(out.value) && error == None
                                   && (rememberMe ==> st.local == flagged[SessionKey := SessionJson(out.value)]
                                                      && st.tab == old(st.tab))
                                   && (!rememberMe ==> st.local == flagged
                                                       && st.tab == old(st.tab)[SessionKey := SessionJson(out.value)])
                                   && GetCurrentSession(st) == signedIn
                                   && (GetSessionStorage(st.local) == LocalMode <==> rememberMe)
                                   && LoadUsers(st.local) == LoadUsers(old(st.local))
                                   && ProfileStatus(st.local) == ProfileStatus(old(st.local)))
              && (out.Failure? ==> signedIn == None && error == Some(InvalidCredentials)
                                   && st.local == old(st.local) && st.tab == old(st.tab))
      ensures info == None && !isLoading
      ensures email == old(email) && password == old(password) && rememberMe == old(rememberMe)
    {
      error := None;
      info := None;
      isLoading := true;
      var r := LoginWithOptions(st, digest, role, Credentials(email, password), rememberMe, now);
      match r {
        case Success(session) =>
          signedIn := Some(session);
        case Failure(message) =>
          error := Some(message);
          signedIn := None;
      }
      isLoading := false;
    }

    /** `onForgotPassword`: demo reset of the first matching user's hash to
        the hash of "password123". The session and the mode flag are never
        touched. */
    method OnForgotPassword(st: WebStorage, digest: Digest)
      modifies this, st
      ensures var normalized := NormalizeEmail(email);
              var users := LoadUsers(old(st.local));
              var found := FindUser(users, normalized, role);
              && (normalized == [] ==>
                    error == Some(EnterEmailFirst) && info == None && st.local == old(st.local) && st.tab == old(st.tab))
              && (normalized != [] && found.None? ==>
                    error == Some(NoAccountFound) && info == None && st.local == old(st.local) && st.tab == old(st.tab))
              && (normalized != [] && found.Some? ==>
                    && error == None && info == Some(ResetInfo)
                    && st.local == old(st.local)[UsersKey := UsersJson(ResetPassword(users, found.value, Sha256Hex(digest, DemoPassword)))]
                    && st.tab == old(st.tab)
                    && LoadUsers(st.local) == ResetPassword(users, found.value, Sha256Hex(digest, DemoPassword)))
      ensures GetCurrentSession(st) == old(GetCurrentSession(st))
      ensures GetSessionStorage(st.local) == GetSessionStorage(old(st.local))
      ensures PairUnique(LoadUsers(old(st.local))) ==> PairUnique(LoadUsers(st.local))
      ensures email == old(email) && password == old(password) && rememberMe == old(rememberMe)
      ensures isLoading == old(isLoading)
    {
      error := None;
      info := None;
      var normalizedEmail := NormalizeEmail(email);
      if normalizedEmail == [] {
        error := Some(EnterEmailFirst);
        return;
      }
      var users := LoadUsers(st.local);
      var idx := FindUser(users, normalizedEmail, role);
      if idx.None? {
        error := Some(NoAccountFound);
        return;
      }
      var passwordHash := Sha256Hex(digest, DemoPassword);
      if PairUnique(users) {
        ResetKeepsPairUnique(users, idx.value, passwordHash);
      }
      users := ResetPassword(users, idx.value, passwordHash);
      st.SaveUsers(users);
      info := Some(ResetInfo);
    }
  }
}
