/** The local credential service: sign-up, login, logout and the current
    session, over the browser stores of module Storage. The SHA-256 digest is
    a parameter `digest`; only its lower-case hex rendering is modelled. */
module AuthService {
  import opened Wrappers
  import opened AuthTypes
  import opened Text
  import opened Storage

  newtype byte = x: int | 0 <= x < 256

  /** The digest the browser's crypto API computes from the UTF-8 bytes of a string. */
  type Digest = string -> seq<byte>

  const NameRequired: string := "Name is required."
  const EmailRequired: string := "Email is required."
  const PasswordRequired: string := "Password is required."
  const AccountExists: string := "An account already exists for this email and role."
  const InvalidCredentials: string := "Invalid email or password."

  // ---------------------------------------------------------------------
  // Hex rendering of the digest

  predicate IsLowerHex(c: char) {
    '0' <= c <= '9' || 'a' <= c <= 'f'
  }

  /** The digit `d` in base 16, lower case, as `toString(16)` writes it. */
  function HexDigit(d: int): (c: char)
    requires 0 <= d < 16
    ensures IsLowerHex(c)
  {
    if d < 10 then ('0' as int + d) as char else ('a' as int + d - 10) as char
  }

  function HexValue(c: char): (d: int)
    requires IsLowerHex(c)
    ensures 0 <= d < 16 && HexDigit(d) == c
  {
    if c <= '9' then c as int - '0' as int else c as int - 'a' as int + 10
  }

  /** `b.toString(16).padStart(2, '0')`. */
  function ByteHex(b: byte): (h: string)
    ensures |h| == 2 && IsLowerHex(h[0]) && IsLowerHex(h[1])
    ensures 16 * HexValue(h[0]) + HexValue(h[1]) == b as int
  {
    var digits := if b < 16 then [HexDigit(b as int)] else [HexDigit((b / 16) as int), HexDigit((b % 16) as int)];
    if |digits| < 2 then "0" + digits else digits
  }

  /** `bytes.map(byteHex).join('')`. */
  function HexEncode(bs: seq<byte>): (h: string)
    ensures |h| == 2 * |bs|
    ensures forall i :: 0 <= i < |h| ==> IsLowerHex(h[i])
  {
    if bs == [] then "" else ByteHex(bs[0]) + HexEncode(bs[1..])
  }

  /** Reads back a lower-case hex string two characters per byte. */
  function HexDecode(s: string): Option<seq<byte>>
    decreases |s|
  {
    if |s| == 0 then Some([])
    else if |s| < 2 || !IsLowerHex(s[0]) || !IsLowerHex(s[1]) then None
    else
      match HexDecode(s[2..])
      case None => None
      case Some(rest) => Some([(16 * HexValue(s[0]) + HexValue(s[1])) as byte] + rest)
  }

  lemma {:induction false} HexRoundTrip(bs: seq<byte>)
    ensures HexDecode(HexEncode(bs)) == Some(bs)
  {
    if bs != [] {
      var h := HexEncode(bs);
      assert h[2..] == HexEncode(bs[1..]);
      HexRoundTrip(bs[1..]);
      assert bs == [bs[0]] + bs[1..];
    }
  }

  /** Different digests render differently, so comparing hex strings is
      comparing digests. */
  lemma HexEncodeInjective(a: seq<byte>, b: seq<byte>)
    ensures HexEncode(a) == HexEncode(b) <==> a == b
  {
    HexRoundTrip(a);
    HexRoundTrip(b);
  }

  /** `sha256Hex`: lower-case hex, two characters per digest byte. */
  function Sha256Hex(digest: Digest, input: string): (h: string)
    ensures |h| == 2 * |digest(input)|
    ensures forall i :: 0 <= i < |h| ==> IsLowerHex(h[i])
    ensures HexDecode(h) == Some(digest(input))
  {
    HexRoundTrip(digest(input));
    HexEncode(digest(input))
  }

  // ---------------------------------------------------------------------
  // The user list

  predicate Matches(u: StoredUser, email: string, role: Role) {
    u.email == email && u.role == role
  }

  /** `users.find` / `users.findIndex` for an (email, role) pair: the first match. */
  function FindUser(users: seq<StoredUser>, email: string, role: Role): (r: Option<nat>)
    ensures r.Some? ==> r.value < |users| && Matches(users[r.value], email, role)
    ensures r.Some? ==> forall j :: 0 <= j < r.value ==> !Matches(users[j], email, role)
    ensures r.None? ==> forall j :: 0 <= j < |users| ==> !Matches(users[j], email, role)
  {
    if users == [] then None
    else if Matches(users[0], email, role) then Some(0)
    else
      match FindUser(users[1..], email, role)
      case None => None
      case Some(i) => Some(i + 1)
  }

  /** `users.some(...)` for an (email, role) pair. */
  predicate HasAccount(users: seq<StoredUser>, email: string, role: Role) {
    exists j :: 0 <= j < |users| && Matches(users[j], email, role)
  }

  /** At most one user per (email, role) pair. */
  predicate PairUnique(users: seq<StoredUser>): (b: bool)
    ensures b <==> forall i, j :: 0 <= i < |users| && 0 <= j < |users| && Matches(users[i], users[j].email, users[j].role) ==> i == j
  {
    forall i, j :: 0 <= i < j < |users| && users[i].email == users[j].email ==> users[i].role != users[j].role
  }

  /** Appending a user whose pair is not taken keeps the list pair-unique. */
  lemma AppendKeepsPairUnique(users: seq<StoredUser>, u: StoredUser)
    requires PairUnique(users) && !HasAccount(users, u.email, u.role)
    ensures PairUnique(users + [u])
  {
    var us := users + [u];
    forall i, j | 0 <= i < j < |us| && us[i].email == us[j].email
      ensures us[i].role != us[j].role
    {
      if j == |users| {
        assert !Matches(users[i], u.email, u.role);
      }
    }
  }

  /** Two lists that agree on every email and role have the same first match. */
  lemma {:induction false} FindUserIgnoresOtherFields(a: seq<StoredUser>, b: seq<StoredUser>, email: string, role: Role)
    requires |a| == |b|
    requires forall j :: 0 <= j < |a| ==> a[j].email == b[j].email && a[j].role == b[j].role
    ensures FindUser(a, email, role) == FindUser(b, email, role)
  {
    if a != [] {
      FindUserIgnoresOtherFields(a[1..], b[1..], email, role);
    }
  }

  // ---------------------------------------------------------------------
  // Sign-up

  /** The checks of `signUp`, in the order the code makes them. */
  function SignUpError(users: seq<StoredUser>, p: SignUpPayload): (e: Option<string>)
    ensures AllSpace(p.name) ==> e == Some(NameRequired)
    ensures !AllSpace(p.name) && NormalizeEmail(p.email) == [] ==> e == Some(EmailRequired)
    ensures !AllSpace(p.name) && NormalizeEmail(p.email) != [] && p.password == [] ==> e == Some(PasswordRequired)
    ensures !AllSpace(p.name) && NormalizeEmail(p.email) != [] && p.password != [] ==>
              (e == Some(AccountExists) <==> HasAccount(users, NormalizeEmail(p.email), p.role))
    ensures e == None <==>
              !AllSpace(p.name) && NormalizeEmail(p.email) != [] && p.password != []
              && !HasAccount(users, NormalizeEmail(p.email), p.role)
  {
    TrimEmptyIffAllSpace(p.name);
    var email := NormalizeEmail(p.email);
    if Trim(p.name) == [] then Some(NameRequired)
    else if email == [] then Some(EmailRequired)
    else if p.password == [] then Some(PasswordRequired)
    else if FindUser(users, email, p.role).Some? then Some(AccountExists)
    else None
  }

  /** The record `signUp` appends. */
  function NewUser(digest: Digest, p: SignUpPayload, id: string): (u: StoredUser)
    ensures ToPublicUser(u) == AuthUser(id, p.role, Trim(p.name), NormalizeEmail(p.email))
    ensures HexDecode(u.passwordHash) == Some(digest(p.password))
  {
    StoredUser(id, p.role, Trim(p.name), NormalizeEmail(p.email), Sha256Hex(digest, p.password))
  }

  /** An email taken under one role is still free under the other. */
  lemma OtherRoleStillFree(users: seq<StoredUser>, p: SignUpPayload)
    requires PairUnique(users)
    requires !AllSpace(p.name) && NormalizeEmail(p.email) != [] && p.password != []
    requires forall j :: 0 <= j < |users| && users[j].email == NormalizeEmail(p.email) ==> users[j].role != p.role
    ensures SignUpError(users, p) == None
  {
  }

  // ---------------------------------------------------------------------
  // Login

  /** The match `loginWithOptions` looks for and the one failure it reports,
      whichever of email and password was wrong. */
  function Authenticate(users: seq<StoredUser>, role: Role, email: string, hash: string): (r: Result<StoredUser, string>)
    ensures r.Failure? ==> r.error == InvalidCredentials
    ensures r.Success? ==> r.value in users && Matches(r.value, email, role) && r.value.passwordHash == hash
    ensures !HasAccount(users, email, role) ==> r.Failure?
  {
    match FindUser(users, email, role)
    case None => Failure(InvalidCredentials)
    case Some(i) =>
      if users[i].passwordHash != hash then Failure(InvalidCredentials) else Success(users[i])
  }

  /** In a pair-unique list, login succeeds exactly when some user has the
      pair and the hash. */
  lemma AuthenticateIff(users: seq<StoredUser>, role: Role, email: string, hash: string)
    requires PairUnique(users)
    ensures Authenticate(users, role, email, hash).Success? <==>
            exists j :: 0 <= j < |users| && Matches(users[j], email, role) && users[j].passwordHash == hash
  {
    var r := FindUser(users, email, role);
    if r.Some? {
      var i := r.value;
      forall j | 0 <= j < |users| && Matches(users[j], email, role)
        ensures j == i
      {
        assert users[i].email == email == users[j].email;
      }
    }
  }

  /** The session `loginWithOptions` creates, or its failure. */
  function LoginOutcome(users: seq<StoredUser>, digest: Digest, role: Role, creds: Credentials, now: int): (r: Result<AuthSession, string>)
    ensures r.Failure? ==> r.error == InvalidCredentials
    ensures r.Success? ==> r.value.createdAt == now && r.value.user.role == role
                           && r.value.user.email == NormalizeEmail(creds.email)
    ensures var a := Authenticate(users, role, NormalizeEmail(creds.email), Sha256Hex(digest, creds.password));
            && (r.Success? <==> a.Success?)
            && (r.Success? ==> r.value == AuthSession(ToPublicUser(a.value), now))
  {
    match Authenticate(users, role, NormalizeEmail(creds.email), Sha256Hex(digest, creds.password))
    case Failure(e) => Failure(e)
    case Success(u) => Success(AuthSession(ToPublicUser(u), now))
  }

  // ---------------------------------------------------------------------
  // The service operations

  /** `getCurrentSession`. */
  function GetCurrentSession(st: WebStorage): (s: Option<AuthSession>)
    reads st
    ensures SessionKey !in st.local && SessionKey !in st.tab ==> s == None
    ensures s.Some? ==> var store := if GetSessionStorage(st.local) == SessionMode then st.tab else st.local;
                        SessionKey in store && store[SessionKey] == SessionJson(s.value)
  {
    LoadSession(st.local, st.tab)
  }

  /** `signUp`: validate, then append the new user, save the list, and mark
      the pair's profile as not completed. `id` is the fresh UUID. */
  method SignUp(st: WebStorage, digest: Digest, payload: SignUpPayload, id: string) returns (r: Result<AuthUser, string>)
    modifies st
    ensures var users := LoadUsers(old(st.local));
            match SignUpError(users, payload)
            case Some(e) => r == Failure(e) && st.local == old(st.local) && st.tab == old(st.tab)
            case None =>
              var u := NewUser(digest, payload, id);
              && r == Success(ToPublicUser(u))
              && st.local == WithProfileCompleted(old(st.local)[UsersKey := UsersJson(users + [u])], payload.role, u.email, false)
              && st.tab == old(st.tab)
              && LoadUsers(st.local) == users + [u]
              && !GetProfileCompleted(st.local, payload.role, payload.email)
    ensures PairUnique(LoadUsers(old(st.local))) ==> PairUnique(LoadUsers(st.local))
    ensures GetCurrentSession(st) == old(GetCurrentSession(st))
  {
    var users := LoadUsers(st.local);
    var email := NormalizeEmail(payload.email);
    TrimEmptyIffAllSpace(payload.name);
    if Trim(payload.name) == [] {
      return Failure(NameRequired);
    }
    if email == [] {
      return Failure(EmailRequired);
    }
    if payload.password == [] {
      return Failure(PasswordRequired);
    }
    if FindUser(users, email, payload.role).Some? {
      return Failure(AccountExists);
    }
    var passwordHash := Sha256Hex(digest, payload.password);
    var user := StoredUser(id, payload.role, Trim(payload.name), email, passwordHash);
    if PairUnique(users) {
      AppendKeepsPairUnique(users, user);
    }
    users := users + [user];
    st.SaveUsers(users);
    st.SetProfileCompleted(payload.role, email, false);
    NormalizeIdempotent(payload.email);
    SetThenGetProfileCompleted(old(st.local)[UsersKey := UsersJson(users)], payload.role, email, false, payload.email);
    r := Success(ToPublicUser(user));
  }

  /** `loginWithOptions`: on success the mode flag is 'local' exactly when
      `rememberMe`, and the new session is the one read back. On failure no
      key is written. `now` is the clock reading. */
  method LoginWithOptions(st: WebStorage, digest: Digest, role: Role, creds: Credentials, rememberMe: bool, now: int)
    returns (r: Result<AuthSession, string>)
    modifies st
    ensures r == LoginOutcome(LoadUsers(old(st.local)), digest, role, creds, now)
    ensures r.Failure? ==> st.local == old(st.local) && st.tab == old(st.tab)
    ensures r.Success? ==>
              var flagged := old(st.local)[SessionStorageKey := ModeJson(if rememberMe then LocalMode else SessionMode)];
              && (rememberMe ==> st.local == flagged[SessionKey := SessionJson(r.value)] && st.tab == old(st.tab))
              && (!rememberMe ==> st.local == flagged && st.tab == old(st.tab)[SessionKey := SessionJson(r.value)])
              && (GetSessionStorage(st.local) == LocalMode <==> rememberMe)
              && GetCurrentSession(st) == Some(r.value)
              && LoadUsers(st.local) == LoadUsers(old(st.local))
              && ProfileStatus(st.local) == ProfileStatus(old(st.local))
  {
    var users := LoadUsers(st.local);
    var email := NormalizeEmail(creds.email);
    var passwordHash := Sha256Hex(digest, creds.password);
    var found := FindUser(users, email, role);
    if found.None? || users[found.value].passwordHash != passwordHash {
      return Failure(InvalidCredentials);
    }
    var match_ := users[found.value];
    st.SetSessionStorage(if rememberMe then LocalMode else SessionMode);
    var session := AuthSession(ToPublicUser(match_), now);
    st.SaveSession(session);
    r := Success(session);
  }

  /** `login`: `loginWithOptions` with `rememberMe` set. */
  method Login(st: WebStorage, digest: Digest, role: Role, creds: Credentials, now: int) returns (r: Result<AuthSession, string>)
    modifies st
    ensures r == LoginOutcome(LoadUsers(old(st.local)), digest, role, creds, now)
    ensures r.Failure? ==> st.local == old(st.local) && st.tab == old(st.tab)
    ensures r.Success? ==>
              && st.local == old(st.local)[SessionStorageKey := ModeJson(LocalMode)][SessionKey := SessionJson(r.value)]
              && st.tab == old(st.tab)
              && GetSessionStorage(st.local) == LocalMode && GetCurrentSession(st) == Some(r.value)
              && LoadUsers(st.local) == LoadUsers(old(st.local))
              && ProfileStatus(st.local) == ProfileStatus(old(st.local))
  {
    r := LoginWithOptions(st, digest, role, creds, true, now);
  }

  /** `logout`: whatever the mode, no session is current afterwards. */
  method Logout(st: WebStorage)
    modifies st
    ensures st.local == old(st.local) - {SessionKey} && st.tab == old(st.tab) - {SessionKey}
    ensures GetCurrentSession(st) == None
    ensures LoadUsers(st.local) == LoadUsers(old(st.local))
  {
    st.ClearSession();
  }
}
